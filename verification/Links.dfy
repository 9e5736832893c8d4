/** Why the tree may work on byte pages: whatever node the tree searches or changes, its invariant gives what
    the method of the page asks for, and the search of the page is exact. */
module Links {
  import opened Keys
  import opened Nodes
  import opened Spaces
  import opened Reads
  import opened Trees
  import opened TreeSteps
  import opened BTrees
  import opened Pages

  /** Any key can be searched for in any node of the tree. */
  lemma SearchAllowed(t: Tree, m: map<Bytes, Bytes>, alloc: nat, p: Pid, key: Bytes)
    requires Keeps(t, m, alloc) && p in t.level
    ensures p in t.pages && Searchable(t.pages[p], key)
  {
    hide Sound, Represents, Small, Fits;
    assert SizedPage(t, p);
    ShortNodeSearchable(t.pages[p], key);
  }

  /** `insertInPage` on the leaf for a new key. */
  lemma InsertAllowed(t: Tree, m: map<Bytes, Bytes>, alloc: nat, p: Pid, k: Bytes, v: Bytes)
    requires Keeps(t, m, alloc) && OnPath(t, p, k) && t.level[p] == 0
    requires WellFormed(t.pages[p]) && k != [] && k !in m && HasSpaceFor(t.pages[p], |k|, |v|)
    ensures CanInsert(t.pages[p], k, v)
  {
    SearchAllowed(t, m, alloc, p, k);
    LeafFact(t, m, p, k);
  }

  /** `updateInPlace` and `removeSlot` on the leaf of a stored key. */
  lemma EntryAllowed(t: Tree, m: map<Bytes, Bytes>, alloc: nat, p: Pid, k: Bytes)
    requires Keeps(t, m, alloc) && OnPath(t, p, k) && t.level[p] == 0
    ensures WellFormed(t.pages[p]) && |t.pages[p].keys| == |t.pages[p].pays|
    ensures k in m <==> Found(t.pages[p].keys, k)
    ensures k in m ==> LowerBound(t.pages[p].keys, k) < |t.pages[p].keys| && |t.pages[p].pays[LowerBound(t.pages[p].keys, k)]| == |m[k]|
  {
    LeafFact(t, m, p, k);
    FoundIffMember(t.pages[p].keys, k);
  }

  /** `findSeparator` and `splitNode` below a parent with room, when the left half fits. */
  lemma SplitAllowed(t: Tree, m: map<Bytes, Bytes>, alloc: nat, p: Pid, c: Pid, k: Bytes, ordered: bool, r: Pid)
    requires Keeps(t, m, alloc) && Cuts(t, p, c) && Leads(t, p, k, c) && r !in t.level && r != NO_NEIGHBOUR
    requires HasSpaceFor(t.pages[p], |CutKey(t, c, ordered)|, 8)
    requires CutSlot(t, c, ordered) < |t.pages[c].keys|
    requires Fits(SplitLeft(t.pages[c], CutSlot(t, c, ordered), CutKey(t, c, ordered), r))
    ensures CanCut(t.pages[c], CutSlot(t, c, ordered), CutKey(t, c, ordered), r)
    ensures !t.pages[p].leaf && CanInsert(t.pages[p], CutKey(t, c, ordered), PidBytes(c))
  {
    hide Tiled, Apart, Chained, Represents, FindSeparator, Separator, HasSpaceFor, Size, Small, Sorted, Less,
         Within, Searchable;
    CutReady(t, p, c, k, ordered, r);
    SplitFacts(t, p, c, CutSlot(t, c, ordered), CutKey(t, c, ordered), r);
    SearchAllowed(t, m, alloc, p, CutKey(t, c, ordered));
    InnerFact(t, p);
    NodeWellFormed(t, p);
  }

  /** `mergeNodes` on neighbouring leaves; the bound of the page is that of the nodes. */
  lemma MergeAllowed(t: Tree, m: map<Bytes, Bytes>, alloc: nat, parent: Pid, pos: nat, node: Pid, right: Pid)
    requires Keeps(t, m, alloc) && MergePair(t, parent, pos, node, right)
    ensures Joins(t.pages[node], t.pages[right]) && !t.pages[parent].leaf && pos + 1 < |t.pages[parent].keys|
    ensures BoundOf(t.pages[node], t.pages[right]) == SpaceUpperBound(t.pages[node], t.pages[right])
  {
    hide Apart, Chained, Represents, SpaceUpperBound, Sorted, Less, Within, Size, Kid;
    MergeFacts(t, parent, pos);
    LeafAtZero(t, node);
    LeafAtZero(t, right);
    NodeWellFormed(t, node);
    NodeWellFormed(t, right);
    InnerFact(t, parent);
    assert SizedPage(t, node) && SizedPage(t, right);
  }
}
