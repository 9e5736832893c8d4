/** Removals of one thread alone that lock parent, leaf and right sibling: they end with the two leaves merged, if the
    bound on the merged size allows it, and otherwise with the entry removed. The walk down is the one of every other
    operation; what is new is the look at the parent for a sibling, and the order in which the three pages are locked. */
module SoloMerges {
  import opened Keys
  import opened Nodes
  import opened PageLocks
  import opened Spaces
  import opened Trees
  import opened Olc
  import opened OlcProofs
  import opened Linear
  import opened Solo
  import opened SoloInserts
  import TreeSteps
  import BTrees

  // ----- looking at the parent -----

  /** The thread has read the leaf of a key that is there, and the leaf has a right sibling under its parent `p`. */
  ghost predicate AtLeaf(w: World, t: Tid, op: Op, past: set<Option<Bytes>>, p: Pid, k: Walk, h: int) {
    && HasRead(w, t, op, past, k) && k.trip == Anew(op) && k.parent.Some? && k.parent.value.pid == p && p != META
    && Good(w) && Calm(w, {}, h) && w.open == {} && t in w.threads && op.goal.Del? && op.key in w.m
    && k.cur.pid in w.tree.level && w.tree.level[k.cur.pid] == 0 && More(w.tree, p, k.pos)
  }

  lemma LeafTold(w: World, t: Tid, op: Op, past: set<Option<Bytes>>, p: Pid, k: Walk, h: int)
    requires AtLeaf(w, t, op, past, p, k, h)
    ensures HasRead(w, t, op, past, k) && k.trip == Anew(op) && k.parent.Some? && k.parent.value.pid == p && p != META
    ensures Good(w) && Calm(w, {}, h) && w.open == {} && t in w.threads && op.goal.Del? && op.key in w.m
    ensures k.cur.pid in w.tree.level && w.tree.level[k.cur.pid] == 0 && More(w.tree, p, k.pos)
  {
    hide HasRead, Good, Calm, More;
  }

  lemma NowAtLeaf(w: World, t: Tid, op: Op, past: set<Option<Bytes>>, p: Pid, k: Walk, h: int)
    requires HasRead(w, t, op, past, k) && k.trip == Anew(op) && k.parent.Some? && k.parent.value.pid == p && p != META
    requires Good(w) && Calm(w, {}, h) && w.open == {} && t in w.threads && op.goal.Del? && op.key in w.m
    requires k.cur.pid in w.tree.level && w.tree.level[k.cur.pid] == 0 && More(w.tree, p, k.pos)
    ensures AtLeaf(w, t, op, past, p, k, h)
  {
    hide HasRead, Good, Calm, More;
  }

  /** The parent leads to the page that the thread is at. */
  lemma WalkHangs(w: World, t: Tid, op: Op, past: set<Option<Bytes>>, k: Walk)
    requires Walks(w, t, op, past, k) && k.parent.Some?
    ensures Hangs(w.tree, k.parent.value.pid, k.trip.route, k.pos, k.cur.pid)
    ensures Sane(w, k.parent.value) && Valid(w, k.parent.value)
  {
    StateOfBusy(w, t, op, past, Walking(k)) by { hide Good, Valid, Hangs, Live, Free; }
    hide Good, Hangs, Valid, Live, Sane, Free, Tells, Legal, Lookup;
  }

  lemma ParentSays(w: World, k: Walk)
    requires Good(w) && k.parent.Some? && Sane(w, k.parent.value) && Valid(w, k.parent.value)
    requires Hangs(w.tree, k.parent.value.pid, k.trip.route, k.pos, k.cur.pid)
        && More(w.tree, k.parent.value.pid, k.pos)
    ensures k.parent.value.pid in w.mem && k.pos + 1 < |w.mem[k.parent.value.pid].keys|
  {
    ReadMore(w, k) by { hide *; }
    hide Good, Sane, Valid, Hangs, WellFormed;
  }

  lemma MoreGoes(w: World, t: Tid, op: Op, past: set<Option<Bytes>>, k: Walk)
    requires t in w.threads && w.threads[t] == Busy(op, past, Walking(k)) && k.parent.Some?
    requires k.parent.value.pid in w.mem && k.pos + 1 < |w.mem[k.parent.value.pid].keys|
    ensures Goes(w, w.(threads := w.threads[t := Busy(op, past, Walking(k.(more := Some(true))))]), t, ReadParent(true))
  {
    hide WellFormed;
  }

  lemma SameRead(w: World, w': World, t: Tid, op: Op, past: set<Option<Bytes>>, k: Walk, k': Walk)
    requires HasRead(w, t, op, past, k) && Walks(w', t, op, past, k') && w'.tree == w.tree
    requires k' == k.(more := Some(true))
    ensures HasRead(w', t, op, past, k')
  {
    hide Walks, WellFormed, Decide;
  }

  /** It reads that there is a right sibling. */
  lemma LookRight(w: World, t: Tid, op: Op, past: set<Option<Bytes>>, p: Pid, k: Walk, h: int) returns (w': World,
      k': Walk)
    requires AtLeaf(w, t, op, past, p, k, h)
    ensures Runs(w, w', t, 1) && Stays(w, w') && AtLeaf(w', t, op, past, p, k', h) && k' == k.(more := Some(true))
  {
    hide *;
    LeafTold(w, t, op, past, p, k, h);
    ReadTold(w, t, op, past, k);
    WalksRead(w, t, op, past, k);
    WalkHangs(w, t, op, past, k);
    ParentSays(w, k);
    k' := k.(more := Some(true));
    MoreGoes(w, t, op, past, k);
    w' := MoveWalk(w, t, op, past, k, k', ReadParent(true));
    LedSame(w, w', t, 1);
    SameRead(w, w', t, op, past, k, k');
    WalksGood(w', t, op, past, k');
    LedRuns(w, w', t, 1);
    LedMoved(w, w', t, 1);
    MovedCalm(w, w', t, h);
    StaysTold(w, w');
    NowAtLeaf(w', t, op, past, p, k', h);
  }

  lemma WalksGood(w: World, t: Tid, op: Op, past: set<Option<Bytes>>, k: Walk)
    requires Walks(w, t, op, past, k)
    ensures Good(w) && t in w.threads
  {
    hide Good, Free, Valid, Live;
  }

  // ----- locking parent, leaf and sibling -----

  ghost predicate OwnsTop(w: World, t: Tid, op: Op, past: set<Option<Bytes>>, k: Top, h: int) {
    && Good(w) && Calm(w, {k.p}, h) && w.open == {} && t in w.threads && w.threads[t] == Busy(op, past, OnParent(k))
    && k.cur.pid != k.p && Valid(w, k.cur) && k.look.Seen? && k.trip == Anew(op) && op.goal.Del?
  }

  /** The thread holds the pages of `k`, and memory is as the tree says. */
  ghost predicate OwnsPair(w: World, t: Tid, op: Op, past: set<Option<Bytes>>, k: Pair, h: int) {
    && Good(w) && Calm(w, PairPages(k), h) && w.open == {} && t in w.threads
        && w.threads[t] == Busy(op, past, OnPair(k))
    && k.spare.None? && k.extra == {} && !k.wrote && k.trip == Anew(op) && op.goal.Del?
  }

  lemma TopKnown(w: World, t: Tid, op: Op, past: set<Option<Bytes>>, k: Top, h: int)
    requires OwnsTop(w, t, op, past, k, h)
    ensures Good(w) && Calm(w, {k.p}, h) && w.open == {} && t in w.threads
        && w.threads[t] == Busy(op, past, OnParent(k))
    ensures k.cur.pid != k.p && Valid(w, k.cur) && k.look.Seen? && k.trip == Anew(op) && op.goal.Del?
    ensures k.cur.pid in w.locks
  {
    ValidLocked(w, k.cur) by { hide Good, Calm, Valid; }
    hide Good, Calm, Valid;
  }

  lemma NowOwnsTop(w: World, t: Tid, op: Op, past: set<Option<Bytes>>, k: Top, h: int, held: set<Pid>)
    requires Good(w) && Calm(w, held, h) && held == {k.p} && w.open == {} && t in w.threads
    requires w.threads[t] == Busy(op, past, OnParent(k))
    requires k.cur.pid != k.p && Valid(w, k.cur) && k.look.Seen? && k.trip == Anew(op) && op.goal.Del?
    ensures OwnsTop(w, t, op, past, k, h)
  {
    hide Good, Calm, Valid;
  }

  lemma OwnsTold(w: World, t: Tid, op: Op, past: set<Option<Bytes>>, k: Pair, h: int)
    requires OwnsPair(w, t, op, past, k, h)
    ensures Good(w) && Calm(w, PairPages(k), h) && w.open == {} && t in w.threads
        && w.threads[t] == Busy(op, past, OnPair(k))
    ensures k.spare.None? && k.extra == {} && !k.wrote && k.trip == Anew(op) && op.goal.Del?
  {
    hide Good, Calm, PairPages;
  }

  lemma NowOwns(w: World, t: Tid, op: Op, past: set<Option<Bytes>>, k: Pair, h: int)
    requires Good(w) && Calm(w, PairPages(k), h) && w.open == {} && t in w.threads
        && w.threads[t] == Busy(op, past, OnPair(k))
    requires k.spare.None? && k.extra == {} && !k.wrote && k.trip == Anew(op) && op.goal.Del?
    ensures OwnsPair(w, t, op, past, k, h)
  {
    hide Good, Calm, PairPages;
  }

  lemma DelAboveGoes(w: World, w': World, t: Tid, op: Op, past: set<Option<Bytes>>, k: Walk, top: Top)
    requires t in w.threads && w.threads[t] == Busy(op, past, Walking(k)) && op.goal.Del? && k.look.Seen?
        && k.parent.Some?
    requires k.parent.value.pid in w.locks && CanUpgrade(k.parent.value, w.locks[k.parent.value.pid])
    requires Enabled(LockX, t, w.locks[k.parent.value.pid]) && k.look.d.Here? && k.look.d.answer.Some?
    requires k.parent.value.pid != META && k.more == Some(true)
    requires top == Top(k.trip, k.parent.value.pid, k.pos, k.cur, k.look, true)
    requires MovesLock(w, w', t, Busy(op, past, OnParent(top)), top.p, Apply(LockX, t, w.locks[top.p]))
    ensures Goes(w, w', t, LockParent)
  {
    hide CanUpgrade, Apply, Enabled, MovesLock;
  }

  lemma LeafSays(w: World, t: Tid, op: Op, past: set<Option<Bytes>>, p: Pid, k: Walk, h: int)
    requires AtLeaf(w, t, op, past, p, k, h)
    ensures w.threads[t] == Busy(op, past, Walking(k)) && k.look.Seen? && k.look.d.Here?
    ensures k.look.d.answer == Lookup(w.m, op.key) && k.look.d.answer.Some?
    ensures Valid(w, k.parent.value) && Valid(w, k.cur) && p in w.locks && p != k.cur.pid
  {
    LeafTold(w, t, op, past, p, k, h) by { hide *; }
    ReadLeaf(w, t, op, past, k) by { hide *; }
    ReadTold(w, t, op, past, k) by { hide *; }
    WalksRead(w, t, op, past, k) by { hide *; }
    ParentApart(w, t, op, past, k) by { hide *; }
    ValidLocked(w, k.parent.value) by { hide AtLeaf, Good, Calm, HasRead, Valid; }
    hide AtLeaf, Good, Calm, HasRead, Valid, Walks, Live, Decide, WellFormed, Free;
  }

  lemma LockAboveDel(w: World, t: Tid, op: Op, past: set<Option<Bytes>>, p: Pid, k: Walk, h: int)
    returns (w': World, top: Top)
    requires AtLeaf(w, t, op, past, p, k, h) && k.more == Some(true)
    ensures Runs(w, w', t, 1) && Stays(w, w') && OwnsTop(w', t, op, past, top, h)
    ensures top.p == p && top.pos == k.pos && top.cur == k.cur && top.look == k.look && top.more
  {
    hide *;
    LeafTold(w, t, op, past, p, k, h);
    LeafSays(w, t, op, past, p, k, h);
    var g := k.parent.value;
    CalmUpgrades(w, g, {}, h);
    CalmPage(w, {}, h, p);
    CalmEnabled(w.locks[p], t, h);
    top := Top(k.trip, p, k.pos, k.cur, k.look, true);
    var th, l := Busy(op, past, OnParent(top)), Apply(LockX, t, w.locks[p]);
    w' := w.(threads := w.threads[t := th], locks := w.locks[p := l]);
    LockMoves(w, t, th, p, l);
    DelAboveGoes(w, w', t, op, past, k, top);
    StepRuns(w, w', t, LockParent);
    LockStays(w, w', p, l);
    LockCalm(w, w', t, {}, h, p);
    LockedElsewhere(w, w', k.cur, p) by { ValidLocked(w, k.cur); }
    RunsGood(w, w', t, 1);
    NowOwnsTop(w', t, op, past, top, h, {} + {p});
  }

  lemma LockBelowDel(w: World, t: Tid, op: Op, past: set<Option<Bytes>>, k: Top, h: int) returns (w': World, pair: Pair)
    requires OwnsTop(w, t, op, past, k, h)
    ensures Runs(w, w', t, 1) && Stays(w, w') && OwnsPair(w', t, op, past, pair, h)
    ensures pair == Pair(k.trip, k.p, k.pos, k.cur.pid, pair.decision, k.more, None, None, {}, false, false)
    ensures k.look.Seen? && pair.decision == k.look.d
  {
    hide *;
    TopKnown(w, t, op, past, k, h);
    var c := k.cur.pid;
    CalmUpgrades(w, k.cur, {k.p}, h);
    CalmPage(w, {k.p}, h, c);
    CalmEnabled(w.locks[c], t, h);
    pair := Pair(k.trip, k.p, k.pos, c, k.look.d, k.more, None, None, {}, false, false);
    var th, l := Busy(op, past, OnPair(pair)), Apply(LockX, t, w.locks[c]);
    w' := w.(threads := w.threads[t := th], locks := w.locks[c := l]);
    LockMoves(w, t, th, c, l);
    BelowGoes(w, w', t, op, past, k, pair);
    StepRuns(w, w', t, LockChild);
    LockStays(w, w', c, l);
    LockCalm(w, w', t, {k.p}, h, c);
    PlainPair(pair);
    RunsGood(w, w', t, 1);
    NowOwns(w', t, op, past, pair, h);
  }

  /** The right sibling is a leaf next to the held one. */
  lemma SiblingFacts(w: World, t: Tid, op: Op, past: set<Option<Bytes>>, k: Pair)
    requires Good(w) && t in w.threads && w.threads[t] == Busy(op, past, OnPair(k)) && k.right.None? && k.spare.None?
    requires k.extra == {} && !k.gone && k.more && op.goal.Del? && k.trip == Anew(op) && w.open == {}
    requires k.c in w.tree.level && w.tree.level[k.c] == 0
    ensures k.p in w.tree.pages && k.p in w.mem && w.mem[k.p] == w.tree.pages[k.p] && Inner(w.tree.pages[k.p])
    ensures k.pos + 1 < |w.tree.pages[k.p].keys| && CanMerge(w.tree, k.p, k.pos)
    ensures var r := Kid(w.tree.pages[k.p], k.pos + 1); r in w.locks && r !in PairPages(k)
  {
    PairFacts(w, t, op, past, k) by { hide *; }
    CleanMem(w) by { hide *; }
    GoodTree(w) by { hide *; }
    LevelLocked(w) by { hide *; }
    RightOf(w, k) by { hide Good, Sound, TreeSteps.Sized, Represents, Reason, Legal, Lookup, Owns, Within; }
    hide Good, Sound, TreeSteps.Sized, Represents, Reason, Legal, Lookup, Owns, Within, PairOk, Inner, Kid, CanMerge;
  }

  lemma RightOf(w: World, k: Pair)
    requires Good(w) && PairOk(w, k) && k.more && k.right.None? && k.spare.None? && k.extra == {}
    requires k.c in w.tree.level && w.tree.level[k.c] == 0 && k.p in w.tree.level && w.tree.level[k.p] == 1
    ensures k.p in w.tree.pages && Inner(w.tree.pages[k.p]) && CanMerge(w.tree, k.p, k.pos)
    ensures k.pos + 1 < |w.tree.pages[k.p].keys|
    ensures var r := Kid(w.tree.pages[k.p], k.pos + 1); r in w.tree.level && r !in PairPages(k)
  {
    GoodTree(w) by { hide *; }
    RightApart(w, k) by { hide Good, PairOk, Inner, Kid; MoreTold(w, k); }
    MoreTold(w, k) by { hide *; }
    TreeSteps.InnerFact(w.tree, k.p) by { hide *; }
    hide Good, Tiled, Apart, Chained, Shaped, Represents, TreeSteps.Sized, Within, Tells, Slot, WellFormed;
    MergeFacts(w.tree, k.p, k.pos);
  }

  lemma MoreTold(w: World, k: Pair)
    requires PairOk(w, k) && k.more
    ensures k.p in w.tree.pages && k.pos + 1 < |w.tree.pages[k.p].keys| && Kid(w.tree.pages[k.p], k.pos) == k.c
  {
    hide Within, Tells, Slot, Kid, WellFormed;
  }

  lemma RightGoes(w: World, w': World, t: Tid, op: Op, past: set<Option<Bytes>>, k: Pair, r: Pid)
    requires t in w.threads && w.threads[t] == Busy(op, past, OnPair(k)) && op.goal.Del? && k.trip == Anew(op)
    requires k.right.None? && k.spare.None? && !k.wrote && !k.gone && k.p in w.mem && Inner(w.mem[k.p])
    requires k.pos + 1 < |w.mem[k.p].keys| && r == Kid(w.mem[k.p], k.pos + 1) && r in w.locks
        && Enabled(LockX, t, w.locks[r])
    requires MovesLock(w, w', t, Busy(op, past, OnPair(k.(right := Some(r)))), r, Apply(LockX, t, w.locks[r]))
    ensures Goes(w, w', t, LockRight)
  {
    hide *;
    RightStep(w, w', t, op, past, k, r);
    PairGoes(w, w', t, op, past, k, LockRight);
  }

  lemma RightStep(w: World, w': World, t: Tid, op: Op, past: set<Option<Bytes>>, k: Pair, r: Pid)
    requires t in w.threads && op.goal.Del? && k.trip == Anew(op)
    requires k.right.None? && k.spare.None? && !k.wrote && !k.gone && k.p in w.mem && Inner(w.mem[k.p])
    requires k.pos + 1 < |w.mem[k.p].keys| && r == Kid(w.mem[k.p], k.pos + 1) && r in w.locks
        && Enabled(LockX, t, w.locks[r])
    requires MovesLock(w, w', t, Busy(op, past, OnPair(k.(right := Some(r)))), r, Apply(LockX, t, w.locks[r]))
    ensures PairStep(w, w', t, op, past, k, LockRight)
  {
    hide Kid, Inner, Enabled, Apply, MovesLock;
  }

  lemma LockSibling(w: World, t: Tid, op: Op, past: set<Option<Bytes>>, k: Pair, h: int) returns (w': World, r: Pid)
    requires OwnsPair(w, t, op, past, k, h) && k.right.None? && !k.gone && k.more
    requires k.c in w.tree.level && w.tree.level[k.c] == 0
    ensures Runs(w, w', t, 1) && Stays(w, w') && OwnsPair(w', t, op, past, k.(right := Some(r)), h)
  {
    hide *;
    OwnsTold(w, t, op, past, k, h);
    SiblingFacts(w, t, op, past, k);
    r := Kid(w.tree.pages[k.p], k.pos + 1);
    CalmPage(w, PairPages(k), h, r);
    CalmEnabled(w.locks[r], t, h);
    var k' := k.(right := Some(r));
    var th, l := Busy(op, past, OnPair(k')), Apply(LockX, t, w.locks[r]);
    w' := w.(threads := w.threads[t := th], locks := w.locks[r := l]);
    LockMoves(w, t, th, r, l);
    RightGoes(w, w', t, op, past, k, r);
    StepRuns(w, w', t, LockRight);
    LockStays(w, w', r, l);
    LockCalm(w, w', t, PairPages(k), h, r);
    WithRight(k, r);
    RunsGood(w, w', t, 1);
    NowOwns(w', t, op, past, k', h);
  }

  lemma WithRight(k: Pair, r: Pid)
    requires k.right.None?
    ensures PairPages(k.(right := Some(r))) == PairPages(k) + {r}
  {
  }

  // ----- removing the entry and merging -----

  /** What a finished change of these pages is like. */
  ghost predicate Rebuilt(w: World, w': World, t: Tid, op: Op, at: Stage, tree: Tree, m: map<Bytes, Bytes>) {
    && w'.tree == tree && w'.m == m && w'.locks == w.locks && w'.open == {} && OthersRest(w, w', t)
    && t in w'.threads && w'.threads[t].Busy? && w'.threads[t].op == op && w'.threads[t].at == at
  }

  lemma RebuiltTold(w: World, w': World, t: Tid, op: Op, at: Stage, tree: Tree, m: map<Bytes, Bytes>)
    requires Rebuilt(w, w', t, op, at, tree, m)
    ensures w'.tree == tree && w'.m == m && w'.locks == w.locks && w'.open == {} && OthersRest(w, w', t)
    ensures t in w'.threads && w'.threads[t].Busy? && w'.threads[t] == Busy(op, w'.threads[t].past, at)
  {
    hide OthersRest;
  }

  lemma CommittedPair(w: World, t: Tid, op: Op, past: set<Option<Bytes>>, k: Pair, at: Stage, tree: Tree,
                      m: map<Bytes, Bytes>)
    requires t in w.threads && w.threads[t] == Busy(op, past, OnPair(k)) && w.open == {}
        && PairPages(k) <= tree.pages.Keys
    ensures Held(w.threads[t]) == PairPages(k)
    ensures Rebuilt(w, Committed(w, t, at, tree, m), t, op, at, tree, m)
    ensures Commits(w, Committed(w, t, at, tree, m), t, at, tree, m)
  {
    OthersTouched(w, PairPages(k), m);
    CommitsNow(w, t, at, tree, m);
    hide TouchAll, Lookup;
  }

  lemma PagesStored(w: World, t: Tid, op: Op, past: set<Option<Bytes>>, k: Pair)
    requires Good(w) && t in w.threads && w.threads[t] == Busy(op, past, OnPair(k))
    ensures PairPages(k) <= w.locks.Keys && PairPages(k) <= w.tree.pages.Keys
  {
    PairFacts(w, t, op, past, k) by { hide *; }
    hide TreeOk, LocksOk, OpenOk, ThreadsOk, PairOk, PairPages;
  }

  /** The entry of the key is there. */
  ghost predicate HasEntry(w: World, k: Pair, key: Bytes) {
    && Shaped(w.tree) && IsLeaf(w.tree, k.c) && k.c in w.tree.pages && k.decision.Here?
    && k.decision.slot < |w.tree.pages[k.c].keys| == |w.tree.pages[k.c].pays|
    && k.decision.slot == Slot(w.tree.pages[k.c], key)
  }

  lemma EntryThere(w: World, t: Tid, op: Op, past: set<Option<Bytes>>, k: Pair)
    requires Good(w) && t in w.threads && w.threads[t] == Busy(op, past, OnPair(k))
    requires !k.gone && k.right.Some? && op.goal.Del?
    ensures HasEntry(w, k, op.key)
  {
    DelReady(w, t, op, past, k) by { hide *; }
    hide Good, Tiled, Apart, Chained, Represents, Within, Get, Slot, Sorted, LowerBound;
  }

  /** The tree without the entry. */
  function Without(w: World, k: Pair, key: Bytes): Tree
    requires HasEntry(w, k, key)
  {
    Store(w.tree, k.c, RemoveAt(w.tree.pages[k.c], k.decision.slot))
  }

  lemma DelStep(w: World, w': World, t: Tid, op: Op, past: set<Option<Bytes>>, k: Pair)
    requires t in w.threads && op.goal.Del? && !k.gone && k.right.Some? && HasEntry(w, k, op.key)
    requires Commits(w, w', t, OnPair(k.(gone := true, wrote := false)), Without(w, k, op.key), w.m - {op.key})
    ensures PairStep(w, w', t, op, past, k, CommitDel)
  {
    hide Commits, Shaped, IsLeaf, Slot, RemoveAt, Store;
  }

  lemma WithoutPages(w: World, k: Pair, key: Bytes)
    requires HasEntry(w, k, key)
    ensures Without(w, k, key).pages.Keys == w.tree.pages.Keys
  {
    hide Shaped, IsLeaf, Slot, RemoveAt;
  }

  lemma RemoveEntry(w: World, t: Tid, op: Op, past: set<Option<Bytes>>, k: Pair, h: int)
    returns (w': World, past': set<Option<Bytes>>)
    requires OwnsPair(w, t, op, past, k, h) && k.right.Some? && !k.gone
    ensures HasEntry(w, k, op.key) && Can(w, w', t, 1) && Good(w') && OthersRest(w, w', t)
    ensures OwnsPair(w', t, op, past', k.(gone := true, wrote := false), h)
    ensures w'.tree == Without(w, k, op.key) && w'.m == w.m - {op.key}
  {
    hide *;
    OwnsTold(w, t, op, past, k, h);
    EntryThere(w, t, op, past, k);
    PagesStored(w, t, op, past, k);
    WithoutPages(w, k, op.key);
    var k' := k.(gone := true, wrote := false);
    var at, tree, m := OnPair(k'), Without(w, k, op.key), w.m - {op.key};
    CommittedPair(w, t, op, past, k, at, tree, m);
    w' := Committed(w, t, at, tree, m);
    RebuiltTold(w, w', t, op, at, tree, m);
    DelStep(w, w', t, op, past, k);
    PairGoes(w, w', t, op, past, k, CommitDel);
    StepCan(w, w', t, CommitDel);
    past' := w'.threads[t].past;
    SameLocksHeld(w, w', PairPages(k), h);
    GonePages(k);
    NowOwns(w', t, op, past', k', h);
  }

  lemma GonePages(k: Pair)
    ensures PairPages(k.(gone := true, wrote := false)) == PairPages(k)
  {
  }

  /** The two leaves are next to each other under the parent. */
  ghost predicate Joins(w: World, k: Pair) {
    && k.right.Some? && CanMerge(w.tree, k.p, k.pos) && Kid(w.tree.pages[k.p], k.pos) == k.c
    && Kid(w.tree.pages[k.p], k.pos + 1) == k.right.value && k.decision.Here?
  }

  lemma JoinsNow(w: World, t: Tid, op: Op, past: set<Option<Bytes>>, k: Pair)
    requires Good(w) && t in w.threads && w.threads[t] == Busy(op, past, OnPair(k)) && k.gone && k.right.Some?
    ensures Joins(w, k)
  {
    MergeReady(w, t, op, past, k) by { hide *; }
    PairFacts(w, t, op, past, k) by { hide *; }
    hide Good, CanMerge, Kid, Hangs, Tells, More, Reason, Legal, Lookup, Within, Owns, TripOk, PairPages, Represents;
  }

  /** What is left to do after the merge, or without it. */
  function GoneBack(op: Op, k: Pair): Back
    requires k.decision.Here?
  {
    Back(PairPages(k), Anew(op), Some(k.decision.answer))
  }

  lemma MergeStep(w: World, w': World, t: Tid, op: Op, past: set<Option<Bytes>>, k: Pair)
    requires t in w.threads && k.gone && Joins(w, k) && BoundedMerge(w.tree, k.c, k.right.value)
    requires Commits(w, w', t, Unwinding(GoneBack(op, k)), MergeTree(w.tree, k.p, k.pos), w.m)
    ensures PairStep(w, w', t, op, past, k, CommitMerge)
  {
    hide Commits, CanMerge, Kid, BoundedMerge, MergeTree, PairPages;
  }

  lemma LeaveStep(w: World, w': World, t: Tid, op: Op, past: set<Option<Bytes>>, k: Pair)
    requires t in w.threads && k.gone && !k.wrote && k.decision.Here?
    requires Moves(w, w', t, Busy(op, past, Unwinding(GoneBack(op, k))))
    ensures PairStep(w, w', t, op, past, k, Leave)
  {
    hide Moves, PairPages;
  }

  lemma MergedPages(w: World, k: Pair)
    requires Good(w) && Joins(w, k)
    ensures MergeTree(w.tree, k.p, k.pos).pages.Keys == w.tree.pages.Keys
  {
    MergeSame(w, k) by { hide *; }
    hide Good, CanMerge, Kid, MergeTree;
  }

  /** The tree in the end. */
  function Shrunk(tree: Tree, p: Pid, pos: nat): Tree
    requires CanMerge(tree, p, pos)
  {
    if BoundedMerge(tree, Kid(tree.pages[p], pos), Kid(tree.pages[p], pos + 1)) then MergeTree(tree, p, pos) else tree
  }

  lemma MergeOrLeave(w: World, t: Tid, op: Op, past: set<Option<Bytes>>, k: Pair, h: int)
    returns (w': World, past': set<Option<Bytes>>)
    requires OwnsPair(w, t, op, past, k, h) && k.gone && k.right.Some? && h > 0
    ensures Joins(w, k) && Runs(w, w', t, 1) && w'.tree == Shrunk(w.tree, k.p, k.pos)
    ensures k.decision.Here? && Leaves(w', t, op, past', GoneBack(op, k), h)
  {
    hide *;
    OwnsTold(w, t, op, past, k, h);
    JoinsNow(w, t, op, past, k);
    JoinsTold(w, k);
    PagesStored(w, t, op, past, k);
    var at := Unwinding(GoneBack(op, k));
    if BoundedMerge(w.tree, k.c, k.right.value) {
      MergedPages(w, k);
      var tree := MergeTree(w.tree, k.p, k.pos);
      CommittedPair(w, t, op, past, k, at, tree, w.m);
      w' := Committed(w, t, at, tree, w.m);
      RebuiltTold(w, w', t, op, at, tree, w.m);
      MergeStep(w, w', t, op, past, k);
      PairGoes(w, w', t, op, past, k, CommitMerge);
      StepCan(w, w', t, CommitMerge);
      RunsDone(w, w', t, 1);
    } else {
      w' := w.(threads := w.threads[t := Busy(op, past, at)]);
      MovesNow(w, t, Busy(op, past, at));
      LeaveStep(w, w', t, op, past, k);
      PairGoes(w, w', t, op, past, k, Leave);
      StepRuns(w, w', t, Leave);
      RunsGood(w, w', t, 1);
    }
    past' := w'.threads[t].past;
    CalmSinks(w, PairPages(k), h);
    SameLocksSink(w, w', PairPages(k), h);
    BackHeld(op, k);
    NowLeaves(w', t, op, past', GoneBack(op, k), h);
    ShrunkBy(w, k);
  }

  lemma JoinsTold(w: World, k: Pair)
    requires Joins(w, k)
    ensures k.right.Some? && CanMerge(w.tree, k.p, k.pos) && k.decision.Here?
  {
    hide CanMerge, Kid;
  }

  lemma MovesNow(w: World, t: Tid, th: Thread)
    ensures Moves(w, w.(threads := w.threads[t := th]), t, th)
  {
  }

  lemma BackHeld(op: Op, k: Pair)
    requires k.decision.Here?
    ensures GoneBack(op, k).held == PairPages(k)
    ensures GoneBack(op, k).result == Some(k.decision.answer)
  {
    hide PairPages;
  }

  lemma ShrunkBy(w: World, k: Pair)
    requires Joins(w, k)
    ensures Shrunk(w.tree, k.p, k.pos)
      == if BoundedMerge(w.tree, k.c, k.right.value) then MergeTree(w.tree, k.p, k.pos) else w.tree
  {
    hide CanMerge, MergeTree, BoundedMerge, Kid;
  }

  // ----- a whole removal -----

  /** The only page that leads to the leaf is the given one. */
  lemma SameParent(w: World, p: Pid, pos: nat, q: Pid, i: nat, c: Pid, key: Bytes)
    requires Good(w) && Hangs(w.tree, p, key, pos, c) && Hangs(w.tree, q, key, i, c)
    ensures p == q && pos == i
  {
    HangsLeads(w.tree, p, key, pos, c) by { hide *; }
    HangsLeads(w.tree, q, key, i, c) by { hide *; }
    GoodTree(w) by { hide *; }
    BTrees.LeadsLevels(w.tree, p, key, c) by { hide *; }
    BTrees.LeadsLevels(w.tree, q, key, c) by { hide *; }
    hide Good, Sound, Represents, TreeSteps.Sized, Live, Kid, TreeSteps.Leads;
    OneLeaf(w, p, q, key);
  }

  lemma HangsChild(w: World, p: Pid, pos: nat, c: Pid, key: Bytes)
    requires Good(w) && Hangs(w.tree, p, key, pos, c)
    ensures Live(w.tree, c, key)
  {
    HangsLeads(w.tree, p, key, pos, c) by { hide *; }
    GoodTree(w) by { hide *; }
    LeadsTo(w.tree, p, key, c) by { hide Good, Sound, TreeSteps.Leads; }
    hide Good, Sound, Represents, TreeSteps.Sized, Within, TreeSteps.Leads;
  }

  lemma LeadsTo(t: Tree, p: Pid, key: Bytes, c: Pid)
    requires Sound(t) && TreeSteps.Leads(t, p, key, c)
    ensures TreeSteps.OnPath(t, c, key)
  {
    hide Sound, Within, Inner, Route;
    TreeSteps.Below(t, p, key);
  }

  lemma MoreBy(w: World, p: Pid, pos: nat)
    requires p in w.tree.pages && pos + 1 < |w.tree.pages[p].keys|
    ensures More(w.tree, p, pos)
  {
  }

  /** A removal that is called comes to its leaf, below the given parent. */
  lemma CallToSibling(w: World, t: Tid, op: Op, p: Pid, pos: nat, c: Pid, h: int) returns (w': World, n: nat, k: Walk)
    requires AtRest(w) && Calm(w, {}, h) && t in w.threads && w.threads[t].Idle? && Legal(op) && op.goal.Del?
    requires op.key in w.m && Hangs(w.tree, p, op.key, pos, c) && c in w.tree.level && w.tree.level[c] == 0
    requires p != META && p in w.tree.pages && pos + 1 < |w.tree.pages[p].keys|
    ensures Runs(Called(w, t, op), w', t, n) && Stays(w, w') && w'.m == w.m && OthersRest(w, w', t)
    ensures AtLeaf(w', t, op, {Lookup(w.m, op.key)}, p, k, h) && k.cur.pid == c && k.pos == pos
  {
    hide *;
    RestGood(w);
    RestOpen(w);
    CalmFree(w, h);
    CalledRest(w, t, op);
    CalledFacts(w, t, op);
    HangsChild(w, p, pos, c, op.key);
    var past, u := {Lookup(w.m, op.key)}, Called(w, t, op);
    w', n, k := CallToLeaf(w, t, op);
    LedMoved(u, w', t, n);
    MovedTwice(w, u, w', t);
    MovedCalm(w, w', t, h);
    ReadTold(w', t, op, past, k);
    LedRuns(u, w', t, n);
    MovedStays(w, w', t);
    StaysTold(w, w');
    AnewRoute(op);
    OneLeaf(w', k.cur.pid, c, op.key);
    WalksRead(w', t, op, past, k);
    WalkHangs(w', t, op, past, k);
    SameParent(w', p, pos, k.parent.value.pid, k.pos, c, op.key);
    MoreBy(w', p, pos);
    RunsKept(u, w', t, n);
    RestTwice(w, u, w', t);
    NowAtLeaf(w', t, op, past, p, k, h);
  }

  lemma MovedStays(w: World, w': World, t: Tid)
    requires OnlyMoved(w, w', t)
    ensures Stays(w, w')
  {
    hide StateOf, VersionOf;
  }

  /** It locks leaf, parent and sibling. */
  lemma LockThree(w: World, t: Tid, op: Op, past: set<Option<Bytes>>, p: Pid, k: Walk, h: int)
    returns (w': World, n: nat, pair: Pair)
    requires AtLeaf(w, t, op, past, p, k, h)
    ensures Runs(w, w', t, n) && Stays(w, w') && OwnsPair(w', t, op, past, pair, h) && pair.right.Some? && !pair.gone
    ensures pair.p == p && pair.pos == k.pos && pair.c == k.cur.pid && k.look.Seen? && pair.decision == k.look.d
  {
    hide *;
    LeafTold(w, t, op, past, p, k, h);
    LeafSays(w, t, op, past, p, k, h);
    var a, k1 := LookRight(w, t, op, past, p, k, h);
    var b, top := LockAboveDel(a, t, op, past, p, k1, h);
    var d, pair1 := LockBelowDel(b, t, op, past, top, h);
    StaysThen(w, a, b);
    StaysThen(w, b, d);
    StaysTold(w, d);
    var r;
    w', r := LockSibling(d, t, op, past, pair1, h);
    pair := pair1.(right := Some(r));
    StaysThen(w, d, w');
    RunsThen(w, a, b, t, 1, 1);
    RunsThen(w, b, d, t, 2, 1);
    RunsThen(w, d, w', t, 3, 1);
    n := 4;
  }

  /** The entry is removed, the leaves are merged if they fit, everything is released, and the call returns. */
  lemma RemoveAndReturn(w: World, t: Tid, op: Op, past: set<Option<Bytes>>, k: Pair, h: int)
    returns (w': World, n: nat, past': set<Option<Bytes>>)
    requires OwnsPair(w, t, op, past, k, h) && k.right.Some? && !k.gone && h > 0
    ensures Can(w, w', t, n) && Good(w') && Free(w') && w'.open == {} && OthersRest(w, w', t) && w'.m == w.m - {op.key}
    ensures k.decision.Here? && t in w'.threads && w'.threads[t] == Busy(op, past', Finished(k.decision.answer))
    ensures HasEntry(w, k, op.key) && CanMerge(Without(w, k, op.key), k.p, k.pos)
    ensures w'.tree == Shrunk(Without(w, k, op.key), k.p, k.pos)
  {
    hide *;
    var a, past1 := RemoveEntry(w, t, op, past, k, h);
    var k1 := k.(gone := true, wrote := false);
    var b, past2 := MergeOrLeave(a, t, op, past1, k1, h);
    JoinsTold(a, k1);
    RunsKept(a, b, t, 1);
    var n3: nat;
    w', n3 := LetAllGo(b, t, op, past2, GoneBack(op, k1), h);
    BackHeld(op, k1);
    past' := past2;
    RunsKept(b, w', t, n3);
    StaysTold(b, w');
    CalmFree(w', h - 1);
    n := 1 + 1 + n3;
    CanThen(w, a, b, t, 1, 1);
    CanThen(w, b, w', t, 2, n3);
    RestTwice(w, a, b, t);
    RestTwice(w, b, w', t);
  }

  /** From every world at rest whose pages nobody holds, every removal of a key whose leaf has a right sibling has a run of
      its own that locks both and their parent: it returns what the key stood for, the map loses that key alone, and in
      the tree the entry is gone and the two leaves are one, if the bound on the merged size allows it. */
  lemma MergeAlone(w: World, t: Tid, op: Op, p: Pid, pos: nat, c: Pid, h: int)
    returns (ws: seq<World>, ts: seq<Tid>, es: seq<Event>)
    requires AtRest(w) && Calm(w, {}, h) && h > 0 && t in w.threads && w.threads[t].Idle? && Legal(op) && op.goal.Del?
    requires op.key in w.m && Hangs(w.tree, p, op.key, pos, c) && c in w.tree.level && w.tree.level[c] == 0
    requires p != META && p in w.tree.pages && pos + 1 < |w.tree.pages[p].keys|
    ensures Served(ws, ts, es, t, op, Some(w.m[op.key])) && ws[0] == w && ws[|ts|].m == w.m - {op.key}
    ensures c in w.tree.pages && |w.tree.pages[c].keys| == |w.tree.pages[c].pays|
    ensures Slot(w.tree.pages[c], op.key) < |w.tree.pages[c].keys|
    ensures var left := Store(w.tree, c, RemoveAt(w.tree.pages[c], Slot(w.tree.pages[c], op.key)));
      CanMerge(left, p, pos) && ws[|ts|].tree == Shrunk(left, p, pos)
  {
    hide *;
    CalledRest(w, t, op);
    var u, past := Called(w, t, op), {Lookup(w.m, op.key)};
    var a, n1, k := CallToSibling(w, t, op, p, pos, c, h);
    StaysTold(w, a);
    RunsKept(u, a, t, n1);
    LeafSays(a, t, op, past, p, k, h);
    var b, n2, pair := LockThree(a, t, op, past, p, k, h);
    StaysTold(a, b);
    RunsKept(a, b, t, n2);
    var v, n3, past' := RemoveAndReturn(b, t, op, past, pair, h);
    CanThen(u, a, b, t, n1, n2);
    CanThen(u, b, v, t, n1 + n2, n3);
    RestTwice(w, a, b, t);
    RestTwice(w, b, v, t);
    ws, ts, es := Wrap(w, v, t, op, past', pair.decision.answer, n1 + n2 + n3);
    RetiredSame(v, t);
    EntryTold(b, pair, op.key);
    PresentSays(w.m, op.key);
  }

  lemma EntryTold(w: World, k: Pair, key: Bytes)
    requires HasEntry(w, k, key)
    ensures k.c in w.tree.pages && |w.tree.pages[k.c].keys| == |w.tree.pages[k.c].pays|
    ensures Slot(w.tree.pages[k.c], key) < |w.tree.pages[k.c].keys|
    ensures Without(w, k, key) == Store(w.tree, k.c, RemoveAt(w.tree.pages[k.c], Slot(w.tree.pages[k.c], key)))
  {
    hide Shaped, IsLeaf, Slot, Store, RemoveAt;
  }

  lemma PresentSays(m: map<Bytes, Bytes>, key: Bytes)
    requires key in m
    ensures Lookup(m, key) == Some(m[key])
  {
  }
}
