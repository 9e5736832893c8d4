/** What a scan in either direction has reported at any moment, and that it loses and repeats nothing. */
module Scans {
  import opened Keys
  import opened Nodes
  import opened Trees
  import opened TreeSteps

  type Entry = (Bytes, Bytes)

  predicate Ascending(out: seq<Entry>) {
    forall i, j | 0 <= i < j < |out| :: Less(out[i].0, out[j].0)
  }

  predicate Descending(out: seq<Entry>) {
    forall i, j | 0 <= i < j < |out| :: Less(out[j].0, out[i].0)
  }

  predicate Listed(m: map<Bytes, Bytes>, out: seq<Entry>) {
    forall i | 0 <= i < |out| :: out[i].0 in m && m[out[i].0] == out[i].1
  }

  predicate Reported(out: seq<Entry>, x: Bytes) {
    exists i :: 0 <= i < |out| && out[i].0 == x
  }

  /** The first `want` entries from `key` upwards, or all of them. */
  ghost predicate AscendingFrom(m: map<Bytes, Bytes>, key: Bytes, want: nat, out: seq<Entry>) {
    && |out| <= want && Ascending(out) && Listed(m, out)
    && (forall i | 0 <= i < |out| :: !Less(out[i].0, key))
    && forall x | x in m && !Less(x, key) && (|out| == want > 0 ==> !Less(out[want - 1].0, x)) :: Reported(out, x)
  }

  /** The last `want` entries from `key` downwards, or all of them. */
  ghost predicate DescendingFrom(m: map<Bytes, Bytes>, key: Bytes, want: nat, out: seq<Entry>) {
    && |out| <= want && Descending(out) && Listed(m, out)
    && (forall i | 0 <= i < |out| :: !Less(key, out[i].0))
    && forall x | x in m && !Less(key, x) && (|out| == want > 0 ==> !Less(x, out[want - 1].0)) :: Reported(out, x)
  }

  // ----- ascending -----

  /** Keys a scan standing at slot `pos` of leaf `n` has gone past. */
  predicate Passed(n: Node, pos: nat, x: Bytes)
    requires pos <= |n.keys|
  {
    (n.lo != [] && !Less(n.lo, x)) || (Within(x, n.lo, n.hi) && (pos == |n.keys| || Less(x, n.keys[pos])))
  }

  ghost predicate AscState(t: Tree, m: map<Bytes, Bytes>, key: Bytes, p: Pid, pos: nat, out: seq<Entry>,
                           visited: set<Pid>) {
    && p in t.level && t.level[p] == 0 && p in t.pages
    && var n := t.pages[p];
       && WellFormed(n) && pos <= |n.keys| && (n.hi == [] || !Less(n.hi, key))
       && Ascending(out) && Listed(m, out)
       && (forall i | 0 <= i < |out| :: !Less(out[i].0, key) && (n.hi == [] || !Less(n.hi, out[i].0)))
       && (forall i, j | 0 <= i < |out| && pos <= j < |n.keys| :: Less(out[i].0, n.keys[j]))
       && (forall j | pos <= j < |n.keys| :: !Less(n.keys[j], key))
       && (forall x | x in m && !Less(x, key) && Passed(n, pos, x) :: Reported(out, x))
       && (forall v | v in visited :: v in t.pages && Before(t.pages[v], n))
  }

  lemma NotInGap(t: Tree, m: map<Bytes, Bytes>, p: Pid, x: Bytes)
    requires Sound(t) && Represents(t, m) && p in t.level && t.level[p] == 0 && x in m
    requires p in t.pages && Within(x, t.pages[p].lo, t.pages[p].hi)
    ensures exists i :: 0 <= i < |t.pages[p].keys| == |t.pages[p].pays| && t.pages[p].keys[i] == x && m[x] == t.pages[p].pays[i]
  {
    LeafFact(t, m, p, x);
  }

  lemma AscStart(t: Tree, m: map<Bytes, Bytes>, key: Bytes, p: Pid)
    requires Sound(t) && Represents(t, m) && OnPath(t, p, key) && t.level[p] == 0
    ensures WellFormed(t.pages[p]) && AscState(t, m, key, p, LowerBound(t.pages[p].keys, key), [], {})
  {
    hide Tiled, Apart, Chained, Represents;
    LeafFact(t, m, p, key);
    var n, pos := t.pages[p], LowerBound(t.pages[p].keys, key);
    forall x | x in m && Passed(n, pos, x) ensures Less(x, key) {
      Chain(n.lo, key, x);
      if Within(x, n.lo, n.hi) {
        NotInGap(t, m, p, x);
        var i :| 0 <= i < |n.keys| && n.keys[i] == x;
        if pos < |n.keys| { SlotOrder(n, i, pos); }
      } else {
        Trichotomy(x, n.lo);
        Chain(x, n.lo, key);
      }
    }
  }

  lemma AscVisit(t: Tree, m: map<Bytes, Bytes>, key: Bytes, p: Pid, pos: nat, out: seq<Entry>, visited: set<Pid>)
    requires Sound(t) && Represents(t, m) && AscState(t, m, key, p, pos, out, visited) && pos < |t.pages[p].keys|
    ensures |t.pages[p].keys| == |t.pages[p].pays|
    ensures AscState(t, m, key, p, pos + 1, out + [(t.pages[p].keys[pos], t.pages[p].pays[pos])], visited)
  {
    var n := t.pages[p];
    var next := out + [(n.keys[pos], n.pays[pos])];
    EntryListed(t, m, p, pos);
    forall x | x in m && !Less(x, key) && Passed(n, pos + 1, x) ensures Reported(next, x) {
      if Passed(n, pos, x) {
        StillReported(out, (n.keys[pos], n.pays[pos]), x);
      } else {
        NotInGap(t, m, p, x);
        var i :| 0 <= i < |n.keys| && n.keys[i] == x;
        Trichotomy(x, n.keys[pos]);
        SlotOrder(n, i, pos);
        if pos + 1 < |n.keys| { SlotOrder(n, i, pos + 1); }
        assert next[|out|].0 == x;
      }
    }
    hide Sound, Represents, Passed, Reported, Less;
    AscEntries(n, m, key, pos, out);
  }

  lemma SlotOrder(n: Node, i: nat, j: nat)
    requires WellFormed(n) && i < |n.keys| && j < |n.keys|
    ensures Less(n.keys[i], n.keys[j]) <==> i < j
  {
    Trichotomy(n.keys[i], n.keys[j]);
  }

  lemma StillReported(out: seq<Entry>, e: Entry, x: Bytes)
    requires Reported(out, x)
    ensures Reported(out + [e], x)
  {
    var i :| 0 <= i < |out| && out[i].0 == x;
    assert (out + [e])[i].0 == x;
  }

  lemma EntryListed(t: Tree, m: map<Bytes, Bytes>, p: Pid, i: nat)
    requires Sound(t) && Represents(t, m) && p in t.level && t.level[p] == 0 && p in t.pages
    requires WellFormed(t.pages[p]) && i < |t.pages[p].keys|
    ensures t.pages[p].keys[i] in m && m[t.pages[p].keys[i]] == t.pages[p].pays[i]
  {
    hide Tiled, Apart, Chained, Less;
    var n := t.pages[p];
    Trichotomy(n.keys[i], n.keys[i]);
    if i > 0 { assert Less(n.keys[i - 1], n.keys[i]); }
    LowerBoundUnique(n.keys, n.keys[i], i);
    assert IsLeaf(t, p) && Within(n.keys[i], n.lo, n.hi);
    assert Get(n, n.keys[i]) == Lookup(m, n.keys[i]);
  }

  lemma AscEntries(n: Node, m: map<Bytes, Bytes>, key: Bytes, pos: nat, out: seq<Entry>)
    requires WellFormed(n) && pos < |n.keys| && Ascending(out) && Listed(m, out)
    requires n.keys[pos] in m && m[n.keys[pos]] == n.pays[pos]
    requires forall i, j | 0 <= i < |out| && pos <= j < |n.keys| :: Less(out[i].0, n.keys[j])
    ensures var next := out + [(n.keys[pos], n.pays[pos])];
      Ascending(next) && Listed(m, next) && forall i, j | 0 <= i < |next| && pos + 1 <= j < |n.keys| ::
          Less(next[i].0, n.keys[j])
  {
    hide Less;
  }

  lemma AscNext(t: Tree, m: map<Bytes, Bytes>, key: Bytes, p: Pid, out: seq<Entry>, visited: set<Pid>)
    requires Sound(t) && Represents(t, m) && p in t.pages && AscState(t, m, key, p, |t.pages[p].keys|, out, visited)
    requires t.pages[p].link != NO_NEIGHBOUR
    ensures AscState(t, m, key, t.pages[p].link, 0, out, visited + {p})
    ensures p !in visited
  {
    NextFact(t, p);
    var n, q := t.pages[p], t.pages[t.pages[p].link];
    LeafAtZeroWellFormed(t, n.link);
    hide Shaped, Tiled, Apart, Chained, Less;
    assert n.hi != [] && q.lo == n.hi;
    forall j | 0 <= j < |q.keys| ensures Less(n.hi, q.keys[j]) && !Less(q.keys[j], key) {
      Chain(key, n.hi, q.keys[j]);
      Trichotomy(key, q.keys[j]);
    }
    forall i, j | 0 <= i < |out| && 0 <= j < |q.keys| ensures Less(out[i].0, q.keys[j]) {
      Chain(out[i].0, n.hi, q.keys[j]);
    }
    AscFences(n, q, key, out);
    forall x | x in m && !Less(x, key) && Passed(q, 0, x) ensures Reported(out, x) {
      if Within(x, q.lo, q.hi) {
        NotInGap(t, m, n.link, x);
        var i :| 0 <= i < |q.keys| && q.keys[i] == x;
        SlotOrder(q, i, 0);
      }
      assert Passed(n, |n.keys|, x);
    }
    forall v | v in visited + {p} ensures v in t.pages && Before(t.pages[v], q) {
      Trichotomy(n.hi, n.hi);
      if v != p { BeforeNext(t.pages[v], n, q); }
    }
    if p in visited { Trichotomy(n.lo, n.hi); }
  }

  lemma LeafAtZeroWellFormed(t: Tree, p: Pid)
    requires Sound(t) && p in t.level
    ensures p in t.pages && WellFormed(t.pages[p])
  {
    hide Tiled, Apart, Chained, Sorted, Within;
  }

  lemma BeforeNext(v: Node, n: Node, q: Node)
    requires Before(v, n) && q.lo == n.hi && (n.hi == [] || Less(n.lo, n.hi)) && n.hi != []
    ensures Before(v, q)
  {
    Chain(v.hi, n.lo, n.hi);
    Trichotomy(v.hi, n.hi);
  }

  lemma AscFences(n: Node, q: Node, key: Bytes, out: seq<Entry>)
    requires WellFormed(q) && q.lo == n.hi != [] && !Less(n.hi, key)
    requires forall i | 0 <= i < |out| :: !Less(n.hi, out[i].0)
    ensures q.hi == [] || !Less(q.hi, key)
    ensures forall i | 0 <= i < |out| :: q.hi == [] || !Less(q.hi, out[i].0)
  {
    Chain(key, n.hi, q.hi);
    Trichotomy(key, q.hi);
    forall i | 0 <= i < |out| ensures q.hi == [] || !Less(q.hi, out[i].0) {
      Chain(out[i].0, n.hi, q.hi);
      Trichotomy(out[i].0, q.hi);
    }
  }

  lemma AscDone(t: Tree, m: map<Bytes, Bytes>, key: Bytes, p: Pid, pos: nat, out: seq<Entry>, visited: set<Pid>,
                want: nat)
    requires Sound(t) && Represents(t, m) && AscState(t, m, key, p, pos, out, visited) && |out| <= want
    requires (pos == |t.pages[p].keys| && t.pages[p].link == NO_NEIGHBOUR && |out| < want)
             || (|out| == want > 0 && pos > 0 && out[want - 1].0 == t.pages[p].keys[pos - 1])
    ensures AscendingFrom(m, key, want, out)
  {
    var n := t.pages[p];
    NextFact(t, p);
    MetaNotNeighbour(t, p);
    hide Shaped, Tiled, Apart, Chained, Less;
    forall x | x in m && !Less(x, key) && (|out| == want > 0 ==> !Less(out[want - 1].0, x)) ensures Reported(out, x) {
      if |out| == want > 0 {
        UpToSlot(n, pos, x);
      } else {
        Trichotomy(n.lo, x);
      }
    }
  }

  /** Everything up to the slot before `pos` has been passed. */
  lemma UpToSlot(n: Node, pos: nat, x: Bytes)
    requires WellFormed(n) && 0 < pos <= |n.keys| && !Less(n.keys[pos - 1], x)
    ensures Passed(n, pos, x)
  {
    var k := n.keys[pos - 1];
    Chain(x, k, n.hi);
    Trichotomy(x, n.hi);
    Chain(n.hi, x, k);
    if pos < |n.keys| { Chain(x, k, n.keys[pos]); }
  }

  lemma MetaNotNeighbour(t: Tree, p: Pid)
    requires Sound(t) && IsLeaf(t, p)
    ensures t.pages[p].link == NO_NEIGHBOUR ==> t.pages[p].hi == []
  {
    hide Tiled, Apart;
    NextFact(t, p);
  }

  // ----- descending -----

  /** Keys a scan downwards, with the slots up to `pos` still to come, has gone past. */
  predicate PassedDown(n: Node, pos: int, x: Bytes)
    requires -1 <= pos < |n.keys|
  {
    (n.hi != [] && Less(n.hi, x)) || (Within(x, n.lo, n.hi) && (pos == -1 || Less(n.keys[pos], x)))
  }

  ghost predicate DescState(t: Tree, m: map<Bytes, Bytes>, key: Bytes, p: Pid, pos: int, out: seq<Entry>,
                            visited: set<Pid>) {
    && p in t.level && t.level[p] == 0 && p in t.pages
    && var n := t.pages[p];
       && WellFormed(n) && -1 <= pos < |n.keys| && (n.lo == [] || Less(n.lo, key))
       && Descending(out) && Listed(m, out)
       && (forall i | 0 <= i < |out| :: !Less(key, out[i].0) && (n.lo == [] || Less(n.lo, out[i].0)))
       && (forall i, j | 0 <= i < |out| && 0 <= j <= pos :: Less(n.keys[j], out[i].0))
       && (forall j | 0 <= j <= pos :: !Less(key, n.keys[j]))
       && (forall x | x in m && !Less(key, x) && PassedDown(n, pos, x) :: Reported(out, x))
       && (forall v | v in visited :: v in t.pages && Before(n, t.pages[v]))
  }

  /** Where a scan downwards starts to report: at the last slot whose key is at most `key`. */
  lemma DescStart(t: Tree, m: map<Bytes, Bytes>, key: Bytes, p: Pid, pos: int)
    requires Sound(t) && Represents(t, m) && OnPath(t, p, key) && t.level[p] == 0
    requires WellFormed(t.pages[p]) && -1 <= pos < |t.pages[p].keys|
    requires pos >= 0 ==> !Less(key, t.pages[p].keys[pos])
    requires pos + 1 < |t.pages[p].keys| ==> Less(key, t.pages[p].keys[pos + 1])
    ensures DescState(t, m, key, p, pos, [], {})
  {
    hide Tiled, Apart, Chained, Represents, Less;
    var n := t.pages[p];
    forall j | 0 <= j <= pos ensures !Less(key, n.keys[j]) {
      Chain(n.keys[j], n.keys[pos], key);
      Trichotomy(n.keys[j], key);
    }
    forall x | x in m && PassedDown(n, pos, x) ensures Less(key, x) {
      if Within(x, n.lo, n.hi) {
        NotInGap(t, m, p, x);
        var i :| 0 <= i < |n.keys| && n.keys[i] == x;
        if pos >= 0 { SlotOrder(n, pos, i); }
        if pos + 1 < |n.keys| { Chain(key, n.keys[pos + 1], x); SlotOrder(n, i, pos + 1); }
      } else {
        Chain(key, n.hi, x);
      }
    }
  }

  lemma DescVisit(t: Tree, m: map<Bytes, Bytes>, key: Bytes, p: Pid, pos: nat, out: seq<Entry>, visited: set<Pid>)
    requires Sound(t) && Represents(t, m) && DescState(t, m, key, p, pos, out, visited)
    ensures |t.pages[p].keys| == |t.pages[p].pays|
    ensures DescState(t, m, key, p, pos - 1, out + [(t.pages[p].keys[pos], t.pages[p].pays[pos])], visited)
  {
    var n := t.pages[p];
    var next := out + [(n.keys[pos], n.pays[pos])];
    EntryListed(t, m, p, pos);
    forall x | x in m && !Less(key, x) && PassedDown(n, pos - 1, x) ensures Reported(next, x) {
      if PassedDown(n, pos, x) {
        StillReported(out, (n.keys[pos], n.pays[pos]), x);
      } else {
        NotInGap(t, m, p, x);
        var i :| 0 <= i < |n.keys| && n.keys[i] == x;
        Trichotomy(x, n.keys[pos]);
        SlotOrder(n, pos, i);
        if pos > 0 { SlotOrder(n, pos - 1, i); }
        assert next[|out|].0 == x;
      }
    }
    hide Sound, Represents, PassedDown, Reported, Less;
    DescEntries(n, m, pos, out);
  }

  lemma DescEntries(n: Node, m: map<Bytes, Bytes>, pos: nat, out: seq<Entry>)
    requires WellFormed(n) && pos < |n.keys| && Descending(out) && Listed(m, out)
    requires n.keys[pos] in m && m[n.keys[pos]] == n.pays[pos]
    requires forall i, j | 0 <= i < |out| && 0 <= j <= pos :: Less(n.keys[j], out[i].0)
    ensures var next := out + [(n.keys[pos], n.pays[pos])];
      Descending(next) && Listed(m, next) && forall i, j | 0 <= i < |next| && 0 <= j < pos :: Less(n.keys[j], next[i].0)
  {
    hide Less;
  }

  /** The leaf for a lower fence ends exactly at that fence. */
  lemma FenceLeaf(t: Tree, p: Pid, q: Pid)
    requires Sound(t) && p in t.level && t.level[p] == 0 && p in t.pages && t.pages[p].lo != []
    requires OnPath(t, q, t.pages[p].lo) && t.level[q] == 0
    ensures p != q && t.pages[q].hi == t.pages[p].lo
  {
    hide Tiled, Chained;
    var n, l := t.pages[p], t.pages[q];
    LeafAtZeroWellFormed(t, p);
    LeafAtZeroWellFormed(t, q);
    Trichotomy(n.lo, n.lo);
    ApartFact(t, p, q);
    FencesMeet(n, l);
  }

  lemma FencesMeet(n: Node, l: Node)
    requires Before(n, l) || Before(l, n)
    requires n.lo != [] && Within(n.lo, l.lo, l.hi) && (n.hi == [] || Less(n.lo, n.hi))
    ensures l.hi == n.lo
  {
    Trichotomy(l.hi, n.lo);
    Chain(n.hi, l.lo, n.lo);
    Chain(n.lo, n.hi, n.lo);
    NothingBelowEmpty(n.hi);
    Trichotomy(n.lo, n.lo);
  }

  lemma DescNext(t: Tree, m: map<Bytes, Bytes>, key: Bytes, p: Pid, q: Pid, out: seq<Entry>, visited: set<Pid>)
    requires Sound(t) && Represents(t, m) && DescState(t, m, key, p, -1, out, visited) && t.pages[p].lo != []
    requires OnPath(t, q, t.pages[p].lo) && t.level[q] == 0
    ensures DescState(t, m, key, q, |t.pages[q].keys| - 1, out, visited + {p})
    ensures p !in visited
  {
    FenceLeaf(t, p, q);
    LeafAtZeroWellFormed(t, q);
    var n, l := t.pages[p], t.pages[q];
    hide Shaped, Tiled, Apart, Chained, Less;
    Chain(l.lo, n.lo, key);
    forall j | 0 <= j < |l.keys| ensures !Less(n.lo, l.keys[j]) && !Less(key, l.keys[j]) {
      Chain(l.keys[j], n.lo, key);
      Trichotomy(l.keys[j], key);
    }
    forall i, j | 0 <= i < |out| && 0 <= j < |l.keys| ensures Less(l.keys[j], out[i].0) {
      Chain(l.keys[j], n.lo, out[i].0);
    }
    forall i | 0 <= i < |out| ensures l.lo == [] || Less(l.lo, out[i].0) { Chain(l.lo, n.lo, out[i].0); }
    forall x | x in m && !Less(key, x) && PassedDown(l, |l.keys| - 1, x) ensures Reported(out, x) {
      if Within(x, l.lo, l.hi) {
        NotInGap(t, m, q, x);
        var i :| 0 <= i < |l.keys| && l.keys[i] == x;
        SlotOrder(l, |l.keys| - 1, i);
      }
      assert PassedDown(n, -1, x);
    }
    forall v | v in visited + {p} ensures v in t.pages && Before(l, t.pages[v]) {
      Trichotomy(n.lo, n.lo);
      if v != p { Chain(t.pages[v].lo, n.hi, n.lo); AfterFence(n, t.pages[v]); }
    }
    if p in visited { Trichotomy(n.lo, n.hi); }
  }

  lemma AfterFence(n: Node, v: Node)
    requires Before(n, v) && (n.hi == [] || Less(n.lo, n.hi))
    ensures !Less(v.lo, n.lo)
  {
    Chain(v.lo, n.lo, n.hi);
  }

  lemma DescDone(t: Tree, m: map<Bytes, Bytes>, key: Bytes, p: Pid, pos: int, out: seq<Entry>, visited: set<Pid>,
                 want: nat)
    requires Sound(t) && Represents(t, m) && DescState(t, m, key, p, pos, out, visited) && |out| <= want
    requires (pos == -1 && t.pages[p].lo == [] && |out| < want)
             || (|out| == want > 0 && pos + 1 < |t.pages[p].keys| && out[want - 1].0 == t.pages[p].keys[pos + 1])
    ensures DescendingFrom(m, key, want, out)
  {
    var n := t.pages[p];
    hide Shaped, Tiled, Apart, Chained, Less;
    forall x | x in m && !Less(key, x) && (|out| == want > 0 ==> !Less(x, out[want - 1].0)) ensures Reported(out, x) {
      if |out| == want > 0 {
        DownToSlot(n, pos, x);
      } else {
        Trichotomy(n.hi, x);
      }
    }
  }

  lemma DownToSlot(n: Node, pos: int, x: Bytes)
    requires WellFormed(n) && -1 <= pos && pos + 1 < |n.keys| && !Less(x, n.keys[pos + 1])
    ensures PassedDown(n, pos, x)
  {
    var k := n.keys[pos + 1];
    Chain(n.lo, k, x);
    if pos >= 0 { Chain(n.keys[pos], k, x); }
  }
}
