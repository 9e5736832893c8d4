/** Reading trees whose keys may have any length: a descent by searches that may read on behind a key ends with
    the right answer as long as all nodes on the way can be searched for the key. */
module LongReads {
  import opened Keys
  import opened Nodes
  import opened Spaces
  import opened Blocks
  import opened Reads
  import opened Trees
  import opened TreeSteps

  /** The slot a search of the node may yield: any, unless all its comparisons are clear. */
  predicate MayGo(n: Node, key: Bytes, pos: nat)
    requires WellFormed(n)
  {
    pos <= |n.keys| && (Searchable(n, key) ==> pos == LowerBound(n.keys, key))
  }

  /** What a search of a leaf may answer. */
  predicate MayAnswer(n: Node, key: Bytes, answer: Option<Bytes>)
    requires WellFormed(n)
  {
    Searchable(n, key) ==> answer == Get(n, key)
  }

  /** `slots` are the slots that a lookup takes from page `p` down to a leaf, where it answers. */
  predicate Reaches(t: Tree, p: Pid, key: Bytes, slots: seq<nat>, answer: Option<Bytes>)
    requires Sound(t)
    decreases |slots|
  {
    p in t.level
    && if t.level[p] == 0 then
         NodeFact(t, p);
         slots == [] && MayAnswer(t.pages[p], key, answer)
       else
         NodeFact(t, p);
         InnerFact(t, p);
         |slots| > 0 && MayGo(t.pages[p], key, slots[0]) && Reaches(t, Kid(t.pages[p], slots[0]), key, slots[1..], answer)
  }

  lemma NodeFact(t: Tree, p: Pid)
    requires Sound(t) && p in t.level
    ensures p in t.pages && WellFormed(t.pages[p])
  {
    hide Tiled, Apart, Chained;
  }

  /** Every node on the way to the key can be searched for it. */
  ghost predicate WayClear(t: Tree, key: Bytes) {
    forall p | OnPath(t, p, key) :: Searchable(t.pages[p], key)
  }

  lemma {:induction false} ReachedRight(t: Tree, m: map<Bytes, Bytes>, p: Pid, key: Bytes, slots: seq<nat>,
                                        answer: Option<Bytes>)
    requires Sound(t) && Represents(t, m) && WayClear(t, key) && OnPath(t, p, key) && Reaches(t, p, key, slots, answer)
    ensures answer == Lookup(m, key)
    decreases |slots|
  {
    hide Tiled, Apart, Chained, Represents, Searchable, Within, Lookup;
    NodeFact(t, p);
    if t.level[p] == 0 {
      LeafFact(t, m, p, key);
    } else {
      InnerFact(t, p);
      RouteFits(t, p, key);
      NodeFact(t, Route(t.pages[p], key));
      ReachedRight(t, m, Kid(t.pages[p], slots[0]), key, slots[1..], answer);
    }
  }

  /** A lookup in such a tree says what the map says, whatever the lengths of its keys. */
  lemma LookupRight(t: Tree, m: map<Bytes, Bytes>, key: Bytes, slots: seq<nat>, answer: Option<Bytes>)
    requires Sound(t) && Represents(t, m) && WayClear(t, key) && Reaches(t, META, key, slots, answer)
    ensures answer == Lookup(m, key)
  {
    hide Sound, Represents, WayClear, Reaches, OnPath;
    MetaOnPath(t, key);
    ReachedRight(t, m, META, key, slots, answer);
  }

  // ----- a condition on lengths -----

  /** No comparison of the key with the prefix or with a stored suffix reads on, whatever the bytes. */
  predicate LengthsClear(n: Node, key: Bytes) {
    var p := Prefix(n);
    && !OverReads(Min(|key|, p))
    && forall i | 0 <= i < |n.keys| && p <= |key| && p <= |n.keys[i]| :: !OverReads(Min(|key|, |n.keys[i]|) - p)
  }

  lemma LengthsSearchable(n: Node, key: Bytes)
    requires LengthsClear(n, key)
    ensures Searchable(n, key)
  {
    hide OverReads;
  }

  /** It is enough that the lengths are right on the way. */
  lemma LookupByLengths(t: Tree, m: map<Bytes, Bytes>, key: Bytes, slots: seq<nat>, answer: Option<Bytes>)
    requires Sound(t) && Represents(t, m) && Reaches(t, META, key, slots, answer)
    requires forall p | OnPath(t, p, key) :: LengthsClear(t.pages[p], key)
    ensures answer == Lookup(m, key)
  {
    hide Sound, Represents, Reaches, Within, LengthsClear, Searchable;
    forall p | OnPath(t, p, key) ensures Searchable(t.pages[p], key) { LengthsSearchable(t.pages[p], key); }
    LookupRight(t, m, key, slots, answer);
  }
}
