/** A tree of one leaf, legal in every respect, into which a key of one byte cannot be inserted. */
module Lopsided {
  import opened Keys
  import opened Nodes
  import opened Spaces
  import opened Trees
  import opened TreeSteps
  import opened BTrees

  function LopsidedTree(): Tree {
    Tree(map[META := Node(false, [], [], [], [], 1), 1 := LopsidedLeaf()], map[META := 1, 1 := 0])
  }

  function LopsidedMap(): map<Bytes, Bytes> {
    var n := LopsidedLeaf();
    map[n.keys[0] := n.pays[0], n.keys[1] := n.pays[1], n.keys[2] := n.pays[2], n.keys[3] := n.pays[3],
        n.keys[4] := n.pays[4], n.keys[5] := n.pays[5], n.keys[6] := n.pays[6]]
  }

  lemma LopsidedSound()
    ensures Sound(LopsidedTree())
  {
    LopsidedWellFormed();
    hide LopsidedLeaf, Less;
    LopsidedFences();
    var t := LopsidedTree();
    assert Shaped(t);
    forall p, i: nat | IsInner(t, p) && i <= |t.pages[p].keys| ensures KidFits(t, p, i) {
      assert p == META && i == 0;
    }
  }

  lemma LopsidedFences()
    ensures var n := LopsidedLeaf();
      n.leaf && n.lo == [] && n.hi == [] && n.link == NO_NEIGHBOUR && |n.keys| == |n.pays| == 7
  {
  }

  /** The map has the leaf's entries, and nothing else. */
  lemma LopsidedEntries(k: Bytes)
    ensures WellFormed(LopsidedLeaf()) && Get(LopsidedLeaf(), k) == Lookup(LopsidedMap(), k)
  {
    LopsidedWellFormed();
    var n := LopsidedLeaf();
    hide LopsidedLeaf, Less;
    LopsidedFences();
    FoundIffMember(n.keys, k);
    forall i | 0 <= i < 7 ensures n.keys[i] in LopsidedMap() && LopsidedMap()[n.keys[i]] == n.pays[i]
        && LowerBound(n.keys, n.keys[i]) == i {
      DistinctKeys(n);
      KeyAtSlot(n, i);
    }
  }

  lemma DistinctKeys(n: Node)
    requires WellFormed(n)
    ensures forall i, j | 0 <= i < j < |n.keys| :: n.keys[i] != n.keys[j]
  {
    forall i, j | 0 <= i < j < |n.keys| ensures n.keys[i] != n.keys[j] {
      assert Less(n.keys[i], n.keys[j]);
      Trichotomy(n.keys[i], n.keys[j]);
      Trichotomy(n.keys[i], n.keys[i]);
    }
  }

  lemma LopsidedRepresents()
    ensures Shaped(LopsidedTree()) && Represents(LopsidedTree(), LopsidedMap())
  {
    LopsidedSound();
    LopsidedFences();
    hide LopsidedLeaf, LopsidedMap, Tiled, Apart, Chained, WellFormed, Get, Within, Lookup;
    var t := LopsidedTree();
    forall p, k | IsLeaf(t, p) && Within(k, t.pages[p].lo, t.pages[p].hi)
      ensures Get(t.pages[p], k) == Lookup(LopsidedMap(), k)
    {
      LopsidedEntries(k);
    }
  }

  /** The tree is one that inserts may start from. */
  lemma LopsidedKeeps()
    ensures Keeps(LopsidedTree(), LopsidedMap(), 2)
  {
    hide LopsidedLeaf, LopsidedMap, Sound, Represents, Sized;
    LopsidedSound();
    LopsidedRepresents();
    LopsidedSized();
  }

  lemma LopsidedSized()
    ensures Sized(LopsidedTree())
  {
    LeafFacts();
    FreshRoomy(1);
    hide LopsidedLeaf, Size, Small;
    var t := LopsidedTree();
    assert SizedPage(t, META) && SizedPage(t, 1);
  }

  lemma LeafFacts()
    ensures Small(LopsidedLeaf(), SHORT) && |LopsidedLeaf().keys| == |LopsidedLeaf().pays| && Fits(LopsidedLeaf())
  {
    LeftCanOverflow(NO_NEIGHBOUR);
    hide LopsidedLeaf, Less, Separator, FindSeparator, Size;
  }

  lemma LopsidedStuck()
    ensures Stuck(LopsidedTree(), [13], 0, false) && [13] !in LopsidedMap()
  {
    LeftCanOverflow(NO_NEIGHBOUR);
    LopsidedFences();
    NotStored();
    hide LopsidedLeaf, LopsidedMap, Less, Separator, FindSeparator, Size, Small;
    assert StuckAt(LopsidedTree(), 1, [13], 0, false);
  }

  lemma NotStored()
    ensures [13] !in LopsidedMap()
  {
    assert |WideKey(1)| == |WideKey(2)| == |WideKey(3)| == |WideKey(4)| == 64;
  }

  /** Inserting a key of one byte into that tree overflows. */
  method StuckInsert(tree: BTree) returns (o: Outcome)
    requires tree.Valid() && tree.T() == LopsidedTree() && tree.contents == LopsidedMap()
    requires !tree.splitOrdered && tree.allocCount + 2 <= tree.virtCount
    modifies tree`pages, tree`level, tree`allocCount, tree`contents
    ensures o.Overflow? && tree.contents == LopsidedMap()
  {
    hide LopsidedMap, LopsidedLeaf, Stuck, Keeps;
    LopsidedStuck();
    o := tree.Insert([13], []);
  }
}
