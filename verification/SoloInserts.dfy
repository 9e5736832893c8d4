/** Inserts of one thread alone, with all the splits that they need: they end, and the key is in the map. A pass locks a
    full page and its parent and splits it, after a new root has been put above it if it was the root; if the parent has
    no room for the separator, the thread lets go and comes back to split the parent first. Every pass leaves fewer splits
    to do. */
module SoloInserts {
  import opened Keys
  import opened Nodes
  import opened PageLocks
  import opened Reads
  import opened Spaces
  import opened Trees
  import opened Olc
  import opened OlcProofs
  import opened Linear
  import opened Solo
  import CleanRuns
  import TreeSteps
  import BTrees

  // ----- pages nobody holds -----

  /** Nobody holds the page, and its version can grow by `h`. */
  ghost predicate CalmLock(l: Lock, h: int) {
    l.x.None? && (StateOf(l.word) == UNLOCKED || StateOf(l.word) == MARKED) && VersionOf(l.word) + h < TOP
  }

  /** This is so of all pages but those in `held`, whose versions can also grow by `h`. */
  ghost predicate Calm(w: World, held: set<Pid>, h: int) {
    && (forall p | p in w.locks && p !in held :: CalmLock(w.locks[p], h))
    && forall p | p in w.locks && p in held :: VersionOf(w.locks[p].word) + h < TOP
  }

  lemma CalmFree(w: World, h: int)
    requires Calm(w, {}, h)
    ensures Free(w)
  {
    hide StateOf, VersionOf;
  }

  lemma MovedCalm(w: World, w': World, t: Tid, h: int)
    requires OnlyMoved(w, w', t) && Calm(w, {}, h)
    ensures Calm(w', {}, h)
  {
    hide StateOf, VersionOf;
  }

  lemma CalmPage(w: World, held: set<Pid>, h: int, p: Pid)
    requires Calm(w, held, h) && p in w.locks && p !in held
    ensures CalmLock(w.locks[p], h)
  {
    hide CalmLock;
  }

  // ----- steps that keep the map -----

  /** Thread `t` alone gets there; the map stays, and so do the other threads outside the tree. */
  ghost predicate Runs(w: World, w': World, t: Tid, n: nat) {
    Can(w, w', t, n) && Good(w') && w'.m == w.m && OthersRest(w, w', t) && t in w'.threads
  }

  /** The same tree and the same pages. */
  ghost predicate Stays(w: World, w': World) {
    w'.tree == w.tree && w'.locks.Keys == w.locks.Keys
  }

  lemma StaysThen(a: World, b: World, c: World)
    requires Stays(a, b) && Stays(b, c)
    ensures Stays(a, c)
  {
  }

  lemma StaysTold(w: World, w': World)
    requires Stays(w, w')
    ensures w'.tree == w.tree && w'.locks.Keys == w.locks.Keys
  {
  }

  lemma LockStays(w: World, w': World, p: Pid, l: Lock)
    requires w'.tree == w.tree && p in w.locks && w'.locks == w.locks[p := l]
    ensures Stays(w, w')
  {
  }

  lemma OnlyStays(w: World, w': World)
    requires w'.tree == w.tree && w'.locks == w.locks
    ensures Stays(w, w')
  {
  }

  lemma RunsThen(a: World, b: World, c: World, t: Tid, n: nat, k: nat)
    requires Runs(a, b, t, n) && Runs(b, c, t, k)
    ensures Runs(a, c, t, n + k)
  {
    hide Can, Good, OthersRest;
    CanThen(a, b, c, t, n, k);
    RestTwice(a, b, c, t);
  }

  lemma LedRuns(w: World, w': World, t: Tid, n: nat)
    requires Led(w, w', t, n) && t in w.threads && Good(w')
    ensures Runs(w, w', t, n) && Stays(w, w') && w'.open == w.open
  {
    LedRest(w, w', t, n);
    hide Can, Good, OthersRest;
  }

  /** A step that leaves tree and map alone. */
  lemma StepRuns(w: World, w': World, t: Tid, e: Event)
    requires Good(w) && Goes(w, w', t, e) && t in w.threads && t in w'.threads
    requires w'.threads == w.threads[t := w'.threads[t]] && w'.m == w.m
    ensures Runs(w, w', t, 1)
  {
    hide *;
    StepCan(w, w', t, e);
    RunsBy(w, w', t, 1);
  }

  lemma RunsBy(w: World, w': World, t: Tid, n: nat)
    requires Can(w, w', t, n) && Good(w') && w'.m == w.m && t in w.threads && t in w'.threads
    requires w'.threads == w.threads[t := w'.threads[t]]
    ensures Runs(w, w', t, n)
  {
    MovedRest(w, w', t) by { hide *; }
    hide Can, Good, OthersRest;
  }

  // ----- coming to a page -----

  /** Thread `t` is about to go down for a key that is not there yet; everybody else is outside the tree. */
  ghost predicate Poised(w: World, t: Tid, op: Op, past: set<Option<Bytes>>, trip: Trip, h: int) {
    && Good(w) && Calm(w, {}, h) && w.open == {} && t in w.threads && w.threads[t] == Busy(op, past, Starting(trip))
    && op.goal.Put? && op.key !in w.m
  }

  /** It has read the page where its trip ends. */
  ghost predicate ThereNow(w: World, t: Tid, op: Op, past: set<Option<Bytes>>, trip: Trip, p: Pid, k: Walk, h: int) {
    && HasRead(w, t, op, past, k) && k.trip == trip && k.cur.pid == p && k.parent.Some?
    && Good(w) && Calm(w, {}, h) && w.open == {} && t in w.threads && op.goal.Put? && op.key !in w.m
  }

  lemma PoisedTold(w: World, t: Tid, op: Op, past: set<Option<Bytes>>, trip: Trip, h: int)
    requires Poised(w, t, op, past, trip, h)
    ensures Good(w) && Calm(w, {}, h) && w.open == {} && t in w.threads
        && w.threads[t] == Busy(op, past, Starting(trip))
    ensures op.goal.Put? && op.key !in w.m && Free(w) && META in w.tree.level && w.tree.level[META] > 0
  {
    CalmFree(w, h) by { hide *; }
    MetaAbove(w) by { hide *; }
    hide Good, Calm, Free;
  }

  lemma ReadTold(w: World, t: Tid, op: Op, past: set<Option<Bytes>>, k: Walk)
    requires HasRead(w, t, op, past, k)
    ensures Good(w) && t in w.threads && w.threads[t] == Busy(op, past, Walking(k)) && k.look.Seen?
    ensures Live(w.tree, k.cur.pid, k.trip.route) && Valid(w, k.cur) && (k.parent.Some? ==> Valid(w, k.parent.value))
    ensures k.cur.pid in w.tree.pages && WellFormed(w.tree.pages[k.cur.pid])
    ensures k.look.d == Decide(w.tree.pages[k.cur.pid], k.trip.route)
  {
    hide Good, Free, Live, Valid, WellFormed, Decide;
  }

  /** From the start of a trip the thread comes to a page on the way of its route. */
  lemma ComeTo(w: World, t: Tid, op: Op, past: set<Option<Bytes>>, trip: Trip, p: Pid, h: int)
    returns (w': World, n: nat, k: Walk)
    requires Poised(w, t, op, past, trip, h) && Live(w.tree, p, trip.route) && p != META
    ensures Runs(w, w', t, n) && Stays(w, w') && ThereNow(w', t, op, past, trip, p, k, h)
  {
    hide *;
    PoisedTold(w, t, op, past, trip, h);
    BelowMeta(w, p, trip.route);
    var u, k0 := EnterGoes(w, t, op, past, trip);
    LedSame(w, u, t, 1);
    var n2: nat;
    w', n2, k := GoToLevel(u, t, op, past, k0, w.tree.level[p]);
    n := 1 + n2;
    LedThen(w, u, w', t, 1, n2);
    LedSame(w, w', t, n);
    ReadTold(w', t, op, past, k);
    OneLeaf(w', k.cur.pid, p, trip.route);
    LedRuns(w, w', t, n);
    LedMoved(w, w', t, n);
    MovedCalm(w, w', t, h);
    NowThere(w', t, op, past, trip, p, k, h);
  }

  lemma LedMoved(w: World, w': World, t: Tid, n: nat)
    requires Led(w, w', t, n)
    ensures OnlyMoved(w, w', t)
  {
    hide Can, OnlyMoved;
  }

  lemma NowThere(w: World, t: Tid, op: Op, past: set<Option<Bytes>>, trip: Trip, p: Pid, k: Walk, h: int)
    requires HasRead(w, t, op, past, k) && k.trip == trip && k.cur.pid == p && k.parent.Some?
    requires Good(w) && Calm(w, {}, h) && w.open == {} && t in w.threads && op.goal.Put? && op.key !in w.m
    ensures ThereNow(w, t, op, past, trip, p, k, h)
  {
    hide HasRead, Good, Calm;
  }

  lemma BelowMeta(w: World, p: Pid, key: Bytes)
    requires Good(w) && Live(w.tree, p, key) && p != META
    ensures META in w.tree.level && p in w.tree.level && w.tree.level[p] < w.tree.level[META]
  {
    TreeSteps.MetaTop(w.tree, p) by { hide LocksOk, MemOk, OpenOk, ThreadsOk, Represents, TreeSteps.Sized, Sound,
        Within; }
    hide LocksOk, MemOk, OpenOk, ThreadsOk, Represents, TreeSteps.Sized, Sound, Within;
  }

  // ----- locking parent and child -----

  /** The page where the trip ends has no room for what the insert needs there. */
  ghost predicate Full(w: World, op: Op, trip: Trip, p: Pid) {
    && op.goal.Put? && p in w.tree.pages && p in w.tree.level && |w.tree.pages[p].keys| == |w.tree.pages[p].pays|
    && Need(op, trip) > Capacity(w.tree.pages[p])
    && (if trip.target.Some? then trip.target.value == p else trip == Anew(op) && w.tree.level[p] == 0)
  }

  lemma SameFull(w: World, w': World, op: Op, trip: Trip, p: Pid)
    requires Full(w, op, trip, p) && w'.tree == w.tree
    ensures Full(w', op, trip, p)
  {
    hide Capacity;
  }

  /** The thread holds the parent of `p`. */
  ghost predicate HoldsTop(w: World, t: Tid, op: Op, past: set<Option<Bytes>>, trip: Trip, p: Pid, k: Top, h: int) {
    && Good(w) && Calm(w, {k.p}, h) && w.open == {} && t in w.threads && w.threads[t] == Busy(op, past, OnParent(k))
    && k.trip == trip && k.cur.pid == p && k.p != p && Valid(w, k.cur) && k.look.Seen? && !k.more
    && op.goal.Put? && op.key !in w.m
  }

  /** The thread holds a page and its parent, and maybe the metadata page, and has not written to them. */
  ghost predicate HoldsPair(w: World, t: Tid, op: Op, past: set<Option<Bytes>>, k: Pair, h: int) {
    && Good(w) && Calm(w, PairPages(k), h) && w.open == {} && t in w.threads
        && w.threads[t] == Busy(op, past, OnPair(k))
    && k.right.None? && k.spare.None? && !k.wrote && !k.gone && !k.more && op.goal.Put? && op.key !in w.m
  }

  lemma LockCalm(w: World, w': World, t: Tid, held: set<Pid>, h: int, p: Pid)
    requires Calm(w, held, h) && p in w.locks && p !in held && w'.locks == w.locks[p := Apply(LockX, t, w.locks[p])]
    ensures Calm(w', held + {p}, h)
  {
    SameVersionUnpacks(w.locks[p].word, LOCKED);
    hide StateOf, VersionOf, SameVersion;
  }

  lemma CalmEnabled(l: Lock, t: Tid, h: int)
    requires CalmLock(l, h)
    ensures Enabled(LockX, t, l)
  {
    hide StateOf, VersionOf;
  }

  lemma CalmUpgrades(w: World, g: Guard, held: set<Pid>, h: int)
    requires Calm(w, held, h) && g.pid in w.locks && g.pid !in held && Valid(w, g)
    ensures CanUpgrade(g, w.locks[g.pid])
  {
    CalmPage(w, held, h, g.pid);
    ValidUpgrades(w, g) by { hide StateOf, VersionOf, Valid; }
    hide StateOf, VersionOf, CanUpgrade, Valid;
  }

  lemma ThereTold(w: World, t: Tid, op: Op, past: set<Option<Bytes>>, trip: Trip, p: Pid, k: Walk, h: int)
    requires ThereNow(w, t, op, past, trip, p, k, h)
    ensures Good(w) && Calm(w, {}, h) && w.open == {} && t in w.threads && w.threads[t] == Busy(op, past, Walking(k))
    ensures op.goal.Put? && op.key !in w.m && k.look.Seen? && k.trip == trip && k.cur.pid == p
    ensures k.parent.Some? && Valid(w, k.parent.value) && Valid(w, k.cur) && k.parent.value.pid in w.locks
    ensures k.parent.value.pid != p && HasRead(w, t, op, past, k)
  {
    ReadTold(w, t, op, past, k) by { hide *; }
    WalksRead(w, t, op, past, k) by { hide *; }
    ParentApart(w, t, op, past, k) by { hide *; }
    ValidLocked(w, k.parent.value) by { hide Good, Calm, HasRead, Valid; }
    hide Good, Calm, HasRead, Valid, Walks;
  }

  lemma ValidLocked(w: World, g: Guard)
    requires Valid(w, g)
    ensures g.pid in w.locks
  {
  }

  lemma WalksRead(w: World, t: Tid, op: Op, past: set<Option<Bytes>>, k: Walk)
    requires HasRead(w, t, op, past, k)
    ensures Walks(w, t, op, past, k)
  {
    hide Walks;
  }

  /** The thread locks the parent. */
  lemma LockAbove(w: World, t: Tid, op: Op, past: set<Option<Bytes>>, trip: Trip, p: Pid, k: Walk, h: int)
    returns (w': World, top: Top)
    requires ThereNow(w, t, op, past, trip, p, k, h) && Full(w, op, trip, p)
    ensures Runs(w, w', t, 1) && Stays(w, w') && HoldsTop(w', t, op, past, trip, p, top, h)
  {
    hide *;
    ThereTold(w, t, op, past, trip, p, k, h);
    FullSeen(w, t, op, past, trip, p, k);
    var g := k.parent.value;
    CalmUpgrades(w, g, {}, h);
    CalmPage(w, {}, h, g.pid);
    CalmEnabled(w.locks[g.pid], t, h);
    top := Top(k.trip, g.pid, k.pos, k.cur, k.look, false);
    var th, l := Busy(op, past, OnParent(top)), Apply(LockX, t, w.locks[g.pid]);
    w' := w.(threads := w.threads[t := th], locks := w.locks[g.pid := l]);
    LockMoves(w, t, th, g.pid, l);
    AboveGoes(w, w', t, op, past, k, top);
    StepRuns(w, w', t, LockParent);
    LockStays(w, w', g.pid, l);
    LockCalm(w, w', t, {}, h, g.pid);
    LockedElsewhere(w, w', k.cur, g.pid) by { ValidLocked(w, k.cur); }
    RunsGood(w, w', t, 1);
    TopNow(w', t, op, past, trip, p, top, h, {} + {g.pid});
  }

  lemma TopNow(w: World, t: Tid, op: Op, past: set<Option<Bytes>>, trip: Trip, p: Pid, k: Top, h: int, held: set<Pid>)
    requires Good(w) && Calm(w, held, h) && held == {k.p} && w.open == {} && t in w.threads
    requires w.threads[t] == Busy(op, past, OnParent(k))
    requires k.trip == trip && k.cur.pid == p && k.p != p && Valid(w, k.cur) && k.look.Seen? && !k.more
    requires op.goal.Put? && op.key !in w.m
    ensures HoldsTop(w, t, op, past, trip, p, k, h)
  {
    hide Good, Calm, Valid;
  }

  lemma RunsGood(w: World, w': World, t: Tid, n: nat)
    requires Runs(w, w', t, n)
    ensures Good(w')
  {
    hide Good, Can, OthersRest;
  }

  lemma FullSeen(w: World, t: Tid, op: Op, past: set<Option<Bytes>>, trip: Trip, p: Pid, k: Walk)
    requires HasRead(w, t, op, past, k) && k.trip == trip && k.cur.pid == p && Full(w, op, trip, p)
    ensures op.goal.Put? && k.look.Seen? && Need(op, k.trip) > k.look.d.room
    ensures if k.trip.target.Some? then k.cur.pid == k.trip.target.value else k.look.d.Here?
  {
    ReadTold(w, t, op, past, k) by { hide *; }
    if trip.target.None? { LeafDecides(w, p, op.key) by { hide Good, Live, Full, HasRead, Decide, Lookup; } }
    hide Good, Live, Valid, HasRead, Lookup, WellFormed, Capacity, Slot, Get, Route;
  }

  lemma AboveGoes(w: World, w': World, t: Tid, op: Op, past: set<Option<Bytes>>, k: Walk, top: Top)
    requires t in w.threads && w.threads[t] == Busy(op, past, Walking(k)) && op.goal.Put? && k.look.Seen?
        && k.parent.Some?
    requires k.parent.value.pid in w.locks && CanUpgrade(k.parent.value, w.locks[k.parent.value.pid])
    requires Enabled(LockX, t, w.locks[k.parent.value.pid]) && Need(op, k.trip) > k.look.d.room
    requires if k.trip.target.Some? then k.cur.pid == k.trip.target.value else k.look.d.Here?
    requires top == Top(k.trip, k.parent.value.pid, k.pos, k.cur, k.look, false)
    requires MovesLock(w, w', t, Busy(op, past, OnParent(top)), top.p, Apply(LockX, t, w.locks[top.p]))
    ensures Goes(w, w', t, LockParent)
  {
    hide CanUpgrade, Apply, Enabled, MovesLock;
  }

  /** And the page itself. */
  lemma LockBelow(w: World, t: Tid, op: Op, past: set<Option<Bytes>>, trip: Trip, p: Pid, k: Top, h: int)
    returns (w': World, pair: Pair)
    requires HoldsTop(w, t, op, past, trip, p, k, h)
    ensures Runs(w, w', t, 1) && Stays(w, w') && HoldsPair(w', t, op, past, pair, h)
    ensures pair.trip == trip && pair.c == p && pair.extra == {}
  {
    hide *;
    TopTold(w, t, op, past, trip, p, k, h);
    CalmUpgrades(w, k.cur, {k.p}, h);
    CalmPage(w, {k.p}, h, p);
    CalmEnabled(w.locks[p], t, h);
    pair := Pair(k.trip, k.p, k.pos, k.cur.pid, k.look.d, k.more, None, None, {}, false, false);
    var th, l := Busy(op, past, OnPair(pair)), Apply(LockX, t, w.locks[p]);
    w' := w.(threads := w.threads[t := th], locks := w.locks[p := l]);
    LockMoves(w, t, th, p, l);
    BelowGoes(w, w', t, op, past, k, pair);
    StepRuns(w, w', t, LockChild);
    LockStays(w, w', p, l);
    LockCalm(w, w', t, {k.p}, h, p);
    PlainPair(pair);
    RunsGood(w, w', t, 1);
    PairNow(w', t, op, past, pair, h);
  }

  lemma PlainPair(k: Pair)
    requires k.right.None? && k.spare.None? && k.extra == {}
    ensures PairPages(k) == {k.p} + {k.c}
  {
  }

  lemma PairNow(w: World, t: Tid, op: Op, past: set<Option<Bytes>>, k: Pair, h: int)
    requires Good(w) && Calm(w, PairPages(k), h) && w.open == {} && t in w.threads
    requires w.threads[t] == Busy(op, past, OnPair(k))
    requires k.right.None? && k.spare.None? && !k.wrote && !k.gone && !k.more && op.goal.Put? && op.key !in w.m
    ensures HoldsPair(w, t, op, past, k, h)
  {
    hide Good, Calm, PairPages;
  }

  lemma TopTold(w: World, t: Tid, op: Op, past: set<Option<Bytes>>, trip: Trip, p: Pid, k: Top, h: int)
    requires HoldsTop(w, t, op, past, trip, p, k, h)
    ensures Good(w) && Calm(w, {k.p}, h) && w.open == {} && t in w.threads
        && w.threads[t] == Busy(op, past, OnParent(k))
    ensures k.trip == trip && k.cur.pid == p && k.p != p && Valid(w, k.cur) && k.look.Seen? && !k.more && p in w.locks
    ensures op.goal.Put? && op.key !in w.m
  {
    ValidLocked(w, k.cur) by { hide Good, Calm, Valid; }
    hide Good, Calm, Valid;
  }

  lemma BelowGoes(w: World, w': World, t: Tid, op: Op, past: set<Option<Bytes>>, k: Top, pair: Pair)
    requires t in w.threads && w.threads[t] == Busy(op, past, OnParent(k)) && k.look.Seen? && k.cur.pid in w.locks
    requires CanUpgrade(k.cur, w.locks[k.cur.pid]) && Enabled(LockX, t, w.locks[k.cur.pid])
    requires pair == Pair(k.trip, k.p, k.pos, k.cur.pid, k.look.d, k.more, None, None, {}, false, false)
    requires MovesLock(w, w', t, Busy(op, past, OnPair(pair)), pair.c, Apply(LockX, t, w.locks[pair.c]))
    ensures Goes(w, w', t, LockChild)
  {
    hide Apply, Enabled, MovesLock, StateOf, ShiftLeft;
  }

  // ----- releasing pages -----

  /** The pages in `held` can be released, and the others are free. */
  ghost predicate Sinks(w: World, held: set<Pid>, h: int) {
    && held <= w.locks.Keys && (forall p | p in w.locks && p !in held :: CalmLock(w.locks[p], h - 1))
    && forall p | p in held :: VersionOf(w.locks[p].word) + h < TOP
  }

  lemma CalmSinks(w: World, held: set<Pid>, h: int)
    requires Calm(w, held, h) && held <= w.locks.Keys
    ensures Sinks(w, held, h)
  {
    hide StateOf, VersionOf;
  }

  lemma SunkCalm(w: World, h: int)
    requires Sinks(w, {}, h)
    ensures Calm(w, {}, h - 1)
  {
    hide CalmLock;
  }

  /** The thread is releasing its pages, and tree and memory agree. */
  ghost predicate Leaves(w: World, t: Tid, op: Op, past: set<Option<Bytes>>, k: Back, h: int) {
    && Good(w) && Sinks(w, k.held, h) && h > 0 && w.open == {} && t in w.threads
        && w.threads[t] == Busy(op, past, Unwinding(k))
  }

  lemma DropSinks(w: World, w': World, t: Tid, held: set<Pid>, h: int, p: Pid)
    requires Sinks(w, held, h) && h > 0 && p in held && w.locks[p].x == Some(t)
    requires w'.locks == w.locks[p := Apply(Action.UnlockX, t, w.locks[p])]
    ensures Sinks(w', held - {p}, h)
  {
    NextVersionUnpacks(w.locks[p].word, UNLOCKED);
    hide StateOf, VersionOf, NextVersion;
  }

  lemma OwnsHeld(w: World, t: Tid, op: Op, past: set<Option<Bytes>>, k: Back, p: Pid)
    requires Good(w) && t in w.threads && w.threads[t] == Busy(op, past, Unwinding(k)) && p in k.held
    ensures Owns(w, t, p)
  {
    hide Good, Owns, Legal, Lookup;
    StateOfBusy(w, t, op, past, Unwinding(k));
    assert p in Held(Busy(op, past, Unwinding(k)));
  }

  lemma OwnedUnlocks(w: World, t: Tid, p: Pid, held: set<Pid>, h: int)
    requires Good(w) && Owns(w, t, p) && Sinks(w, held, h) && p in held && h > 0
    ensures p in w.locks && Enabled(Action.UnlockX, t, w.locks[p]) && VersionOf(w.locks[p].word) + 1 < TOP
    ensures w.locks[p].x == Some(t)
  {
    hide Good, StateOf, VersionOf;
  }

  lemma DropGoes(w: World, w': World, t: Tid, op: Op, past: set<Option<Bytes>>, k: Back, p: Pid)
    requires t in w.threads && w.threads[t] == Busy(op, past, Unwinding(k)) && p in k.held && p in w.locks
    requires Enabled(Action.UnlockX, t, w.locks[p]) && VersionOf(w.locks[p].word) + 1 < TOP
    requires MovesLock(w, w', t, Busy(op, past, Unwinding(k.(held := k.held - {p}))), p,
        Apply(Action.UnlockX, t, w.locks[p]))
    ensures Goes(w, w', t, Event.Unlock(p))
  {
    hide Enabled, Apply, VersionOf, MovesLock;
  }

  lemma LeavesTold(w: World, t: Tid, op: Op, past: set<Option<Bytes>>, k: Back, h: int)
    requires Leaves(w, t, op, past, k, h)
    ensures Good(w) && Sinks(w, k.held, h) && h > 0 && w.open == {}
    ensures t in w.threads && w.threads[t] == Busy(op, past, Unwinding(k))
  {
    hide Good, Sinks;
  }

  lemma NowLeaves(w: World, t: Tid, op: Op, past: set<Option<Bytes>>, k: Back, h: int)
    requires Good(w) && Sinks(w, k.held, h) && h > 0 && w.open == {}
    requires t in w.threads && w.threads[t] == Busy(op, past, Unwinding(k))
    ensures Leaves(w, t, op, past, k, h)
  {
    hide Good, Sinks;
  }

  lemma DropPage(w: World, t: Tid, op: Op, past: set<Option<Bytes>>, k: Back, p: Pid, h: int) returns (w': World)
    requires Leaves(w, t, op, past, k, h) && p in k.held
    ensures Runs(w, w', t, 1) && Stays(w, w') && Leaves(w', t, op, past, k.(held := k.held - {p}), h)
  {
    hide *;
    LeavesTold(w, t, op, past, k, h);
    OwnsHeld(w, t, op, past, k, p);
    OwnedUnlocks(w, t, p, k.held, h);
    var th, l := Busy(op, past, Unwinding(k.(held := k.held - {p}))), Apply(Action.UnlockX, t, w.locks[p]);
    w' := w.(threads := w.threads[t := th], locks := w.locks[p := l]);
    LockMoves(w, t, th, p, l);
    DropGoes(w, w', t, op, past, k, p);
    StepRuns(w, w', t, Event.Unlock(p));
    RunsGood(w, w', t, 1);
    LockStays(w, w', p, l);
    DropSinks(w, w', t, k.held, h, p);
    NowLeaves(w', t, op, past, k.(held := k.held - {p}), h);
  }

  lemma {:induction false} DropAll(w: World, t: Tid, op: Op, past: set<Option<Bytes>>, k: Back, h: int)
    returns (w': World, n: nat)
    requires Leaves(w, t, op, past, k, h)
    ensures Runs(w, w', t, n) && Stays(w, w') && Leaves(w', t, op, past, k.(held := {}), h)
    decreases k.held
  {
    hide *;
    if k.held == {} {
      w', n := w, 0;
      assert k == k.(held := {});
      RunsNone(w, t, op, past, k, h);
      OnlyStays(w, w);
    } else {
      var p :| p in k.held;
      var u := DropPage(w, t, op, past, k, p, h);
      var k1 := k.(held := k.held - {p});
      var n2: nat;
      w', n2 := DropAll(u, t, op, past, k1, h);
      n := 1 + n2;
      assert k1.(held := {}) == k.(held := {});
      RunsThen(w, u, w', t, 1, n2);
      StaysThen(w, u, w');
    }
  }

  lemma RunsNone(w: World, t: Tid, op: Op, past: set<Option<Bytes>>, k: Back, h: int)
    requires Leaves(w, t, op, past, k, h)
    ensures Runs(w, w, t, 0)
  {
    CanStay(w, t) by { hide *; }
    hide Good, Sinks, Can;
  }

  /** With nothing held any more the thread starts again, or returns. */
  lemma EndOf(w: World, t: Tid, op: Op, past: set<Option<Bytes>>, k: Back, h: int) returns (w': World)
    requires Leaves(w, t, op, past, k, h) && k.held == {}
    ensures Runs(w, w', t, 1) && Stays(w, w') && w'.open == {} && Calm(w', {}, h - 1) && t in w'.threads && Good(w')
    ensures w'.threads[t] == Busy(op, past, if k.result.Some? then Finished(k.result.value) else Starting(k.trip))
  {
    hide *;
    LeavesTold(w, t, op, past, k, h);
    var th := Busy(op, past, if k.result.Some? then Finished(k.result.value) else Starting(k.trip));
    w' := w.(threads := w.threads[t := th]);
    EndGo(w, t, op, past, k);
    StepRuns(w, w', t, Finish);
    RunsGood(w, w', t, 1);
    OnlyStays(w, w');
    SunkCalm(w, h);
    SameLocksCalm(w, w', h - 1);
  }

  lemma SameLocksCalm(w: World, w': World, h: int)
    requires Calm(w, {}, h) && w'.locks == w.locks
    ensures Calm(w', {}, h)
  {
    hide CalmLock;
  }

  lemma EndGo(w: World, t: Tid, op: Op, past: set<Option<Bytes>>, k: Back)
    requires t in w.threads && w.threads[t] == Busy(op, past, Unwinding(k)) && k.held == {}
    ensures var th := Busy(op, past, if k.result.Some? then Finished(k.result.value) else Starting(k.trip));
      Goes(w, w.(threads := w.threads[t := th]), t, Finish)
  {
  }

  /** Everything is released. */
  lemma LetAllGo(w: World, t: Tid, op: Op, past: set<Option<Bytes>>, k: Back, h: int) returns (w': World, n: nat)
    requires Leaves(w, t, op, past, k, h)
    ensures Runs(w, w', t, n) && Stays(w, w') && w'.open == {} && Calm(w', {}, h - 1) && t in w'.threads && Good(w')
    ensures w'.threads[t] == Busy(op, past, if k.result.Some? then Finished(k.result.value) else Starting(k.trip))
  {
    hide *;
    var u, n1 := DropAll(w, t, op, past, k, h);
    w' := EndOf(u, t, op, past, k.(held := {}), h);
    n := n1 + 1;
    RunsThen(w, u, w', t, n1, 1);
    StaysThen(w, u, w');
  }

  // ----- splitting -----

  lemma PairTold(w: World, t: Tid, op: Op, past: set<Option<Bytes>>, k: Pair, h: int)
    requires HoldsPair(w, t, op, past, k, h)
    ensures Good(w) && Calm(w, PairPages(k), h) && w.open == {} && t in w.threads
        && w.threads[t] == Busy(op, past, OnPair(k))
    ensures k.right.None? && k.spare.None? && !k.wrote && !k.gone && !k.more && op.goal.Put? && op.key !in w.m
  {
    hide Good, Calm, PairPages;
  }

  lemma PairKnown(w: World, t: Tid, op: Op, past: set<Option<Bytes>>, k: Pair)
    requires Good(w) && t in w.threads && w.threads[t] == Busy(op, past, OnPair(k)) && op.goal.Put? && !k.gone
    ensures k.c in w.tree.level && k.p in w.tree.level && w.tree.level[k.c] + 1 == w.tree.level[k.p] && k.c != k.p
    ensures Hangs(w.tree, k.p, k.trip.route, k.pos, k.c) && PairPages(k) <= w.locks.Keys
    ensures k.c in w.tree.pages && k.p in w.tree.pages && Cuttable(w.tree.pages[k.c]) && WellFormed(w.tree.pages[k.p])
    ensures forall ordered :: SlotAllowed(FindSeparator(w.tree.pages[k.c], ordered).slot)
  {
    FullCuttable(w, t, op, past, k) by { hide *; }
    PairFacts(w, t, op, past, k) by { hide *; }
    hide Good, WellFormed, Cuttable, FindSeparator, SlotAllowed, Reason, Legal, Lookup, Kid, Slot, Within, Tells, More, TripOk;
  }

  lemma CleanMem(w: World)
    requires Good(w) && w.open == {}
    ensures w.mem == w.tree.pages
  {
    hide TreeOk, LocksOk, OpenOk, ThreadsOk;
  }

  /** Where a page is cut, and by which key. */
  function CutOf(n: Node, ordered: bool): (r: (nat, Bytes))
    requires Cuttable(n)
  {
    (FindSeparator(n, ordered).slot, Separator(n, ordered))
  }

  /** Without room in the parent, the thread will make room there first. */
  lemma AimHigher(w: World, t: Tid, op: Op, past: set<Option<Bytes>>, k: Pair, h: int, ordered: bool)
    returns (w': World, n: nat)
    requires HoldsPair(w, t, op, past, k, h) && h > 0 && k.p != META
    requires k.c in w.tree.pages && Cuttable(w.tree.pages[k.c]) && k.p in w.tree.pages
    requires WellFormed(w.tree.pages[k.p]) && !HasSpaceFor(w.tree.pages[k.p], |CutOf(w.tree.pages[k.c], ordered).1|, 8)
    ensures Runs(w, w', t, n) && Stays(w, w')
    ensures Poised(w', t, op, past, Trip(CutOf(w.tree.pages[k.c], ordered).1, Some(k.p)), h - 1)
  {
    hide *;
    PairTold(w, t, op, past, k, h);
    PairKnown(w, t, op, past, k);
    CleanMem(w);
    var back := Back(PairPages(k), Trip(CutOf(w.tree.pages[k.c], ordered).1, Some(k.p)), None);
    var th := Busy(op, past, Unwinding(back));
    var u := w.(threads := w.threads[t := th]);
    AimGoes(w, t, op, past, k, ordered);
    StepRuns(w, u, t, GiveUp(ordered));
    RunsGood(w, u, t, 1);
    CalmSinks(w, PairPages(k), h);
    SameLocksSink(w, u, PairPages(k), h);
    NowLeaves(u, t, op, past, back, h);
    var n2: nat;
    w', n2 := LetAllGo(u, t, op, past, back, h);
    n := 1 + n2;
    RunsThen(w, u, w', t, 1, n2);
    OnlyStays(w, u);
    StaysThen(w, u, w');
    NowPoised(w, w', t, op, past, back.trip, h - 1, n);
  }

  lemma SameLocksSink(w: World, w': World, held: set<Pid>, h: int)
    requires Sinks(w, held, h) && w'.locks == w.locks
    ensures Sinks(w', held, h)
  {
    hide CalmLock, VersionOf;
  }

  lemma NowPoised(w: World, w': World, t: Tid, op: Op, past: set<Option<Bytes>>, trip: Trip, h: int, n: nat)
    requires Runs(w, w', t, n) && Calm(w', {}, h) && w'.open == {} && t in w'.threads
    requires w'.threads[t] == Busy(op, past, Starting(trip)) && op.goal.Put? && op.key !in w.m
    ensures Poised(w', t, op, past, trip, h)
  {
    hide Good, Calm, Can, OthersRest;
  }

  lemma AimGoes(w: World, t: Tid, op: Op, past: set<Option<Bytes>>, k: Pair, ordered: bool)
    requires t in w.threads && w.threads[t] == Busy(op, past, OnPair(k)) && w.mem == w.tree.pages && op.goal.Put?
    requires !k.wrote && k.spare.None? && k.right.None? && k.p != META && k.c in w.mem && k.p in w.mem
    requires Cuttable(w.mem[k.c]) && WellFormed(w.mem[k.p])
        && !HasSpaceFor(w.mem[k.p], |CutOf(w.mem[k.c], ordered).1|, 8)
    ensures var back := Back(PairPages(k), Trip(CutOf(w.mem[k.c], ordered).1, Some(k.p)), None);
      Goes(w, w.(threads := w.threads[t := Busy(op, past, Unwinding(back))]), t, GiveUp(ordered))
  {
    hide Cuttable, WellFormed, HasSpaceFor, Separator, FindSeparator, PairPages;
  }

  /** A set with all numbers below `n` has at least `n` elements. */
  lemma {:induction false} AllBelow(ids: set<Pid>, n: nat)
    requires n < NO_PAGE && forall p: Pid | p < n :: p in ids
    ensures |ids| >= n
    decreases n
  {
    if n > 0 {
      var last: Pid := n - 1;
      assert last in ids;
      AllBelow(ids - {last}, n - 1);
      assert |ids - {last}| == |ids| - 1;
    }
  }

  /** As long as there are fewer pages than ids, there is an unused one. */
  lemma UnusedPage(ids: set<Pid>) returns (r: Pid)
    requires |ids| < NO_NEIGHBOUR
    ensures r !in ids && r != NO_NEIGHBOUR
  {
    if forall p: Pid | p < NO_NEIGHBOUR :: p in ids { AllBelow(ids, NO_NEIGHBOUR); }
    r :| r !in ids && r < NO_NEIGHBOUR;
  }

  /** The world in which `r` is allocated. */
  function Alloced(w: World, t: Tid, op: Op, past: set<Option<Bytes>>, k: Pair, r: Pid, n: Node): World {
    w.(locks := w.locks[r := Apply(LockX, t, Fresh())], mem := w.mem[r := n],
       tree := w.tree.(pages := w.tree.pages[r := n]), open := w.open + {r},
       threads := w.threads[t := Busy(op, past, OnPair(k.(spare := Some(r), wrote := true)))])
  }

  lemma AllocGoes(w: World, t: Tid, op: Op, past: set<Option<Bytes>>, k: Pair, r: Pid, n: Node)
    requires t in w.threads && w.threads[t] == Busy(op, past, OnPair(k)) && op.goal.Put? && k.spare.None?
        && k.right.None?
    requires r !in w.locks && r != NO_NEIGHBOUR
    ensures Goes(w, Alloced(w, t, op, past, k, r, n), t, Alloc(r, n))
  {
    hide Apply, Fresh;
  }

  lemma AllocedFacts(w: World, t: Tid, op: Op, past: set<Option<Bytes>>, k: Pair, r: Pid, n: Node)
    ensures var u := Alloced(w, t, op, past, k, r, n);
      && u.tree == w.tree.(pages := w.tree.pages[r := n]) && u.open == w.open + {r} && u.m == w.m && t in u.threads
      && u.threads[t] == Busy(op, past, OnPair(k.(spare := Some(r), wrote := true)))
      && u.threads == w.threads[t := u.threads[t]] && u.locks == w.locks[r := Apply(LockX, t, Fresh())]
  {
    hide Apply, Fresh;
  }

  lemma AllocCalm(w: World, w': World, t: Tid, k: Pair, r: Pid, h: int)
    requires Calm(w, PairPages(k), h) && k.c in w.locks && r !in w.locks && k.spare.None?
    requires w'.locks == w.locks[r := Apply(LockX, t, Fresh())]
    ensures Calm(w', PairPages(k.(spare := Some(r), wrote := true)), h)
  {
    SameVersionUnpacks(0, EVICTED);
    SameVersionUnpacks(Fresh().word, LOCKED);
    assert VersionOf(w.locks[k.c].word) + h < TOP;
    SparePages(k, r);
    hide StateOf, VersionOf, SameVersion, PairPages;
  }

  lemma SparePages(k: Pair, r: Pid)
    requires k.spare.None?
    ensures PairPages(k.(spare := Some(r), wrote := true)) == PairPages(k) + {r}
    ensures k.p in PairPages(k) && k.c in PairPages(k)
  {
  }

  /** The thread has a new page for the right half, or the new root. */
  ghost predicate HoldsSpare(w: World, t: Tid, op: Op, past: set<Option<Bytes>>, k: Pair, h: int) {
    && Good(w) && Calm(w, PairPages(k), h) && t in w.threads && w.threads[t] == Busy(op, past, OnPair(k))
    && k.right.None? && k.spare.Some? && w.open == {k.spare.value} && op.goal.Put? && op.key !in w.m && !k.gone
  }

  lemma SpareNow(w: World, t: Tid, op: Op, past: set<Option<Bytes>>, k: Pair, h: int)
    requires Good(w) && Calm(w, PairPages(k), h) && t in w.threads && w.threads[t] == Busy(op, past, OnPair(k))
    requires k.right.None? && k.spare.Some? && w.open == {k.spare.value} && op.goal.Put? && op.key !in w.m && !k.gone
    ensures HoldsSpare(w, t, op, past, k, h)
  {
    hide Good, Calm, PairPages;
  }

  lemma SpareTold(w: World, t: Tid, op: Op, past: set<Option<Bytes>>, k: Pair, h: int)
    requires HoldsSpare(w, t, op, past, k, h)
    ensures Good(w) && Calm(w, PairPages(k), h) && t in w.threads && w.threads[t] == Busy(op, past, OnPair(k))
    ensures k.right.None? && k.spare.Some? && w.open == {k.spare.value} && op.goal.Put? && op.key !in w.m && !k.gone
  {
    hide Good, Calm, PairPages;
  }

  /** A page is allocated. */
  lemma GetPage(w: World, t: Tid, op: Op, past: set<Option<Bytes>>, k: Pair, h: int) returns (w': World, r: Pid,
      n: Node)
    requires HoldsPair(w, t, op, past, k, h) && |w.locks| < NO_NEIGHBOUR
    ensures Runs(w, w', t, 1) && HoldsSpare(w', t, op, past, k.(spare := Some(r), wrote := true), h)
    ensures w'.tree == w.tree.(pages := w.tree.pages[r := n])
    ensures r !in w.tree.pages && r !in w.tree.level && r != NO_NEIGHBOUR && |w'.locks| == |w.locks| + 1
  {
    hide *;
    PairTold(w, t, op, past, k, h);
    PairKnown(w, t, op, past, k);
    r := UnusedPage(w.locks.Keys);
    n := w.tree.pages[k.c];
    w' := Alloced(w, t, op, past, k, r, n);
    AllocGoes(w, t, op, past, k, r, n);
    AllocedFacts(w, t, op, past, k, r, n);
    StepRuns(w, w', t, Alloc(r, n));
    RunsGood(w, w', t, 1);
    SparePages(k, r);
    AllocCalm(w, w', t, k, r, h);
    NoPage(w, r);
    OneLockMore(w.locks, r, w'.locks[r]);
    SpareNow(w', t, op, past, k.(spare := Some(r), wrote := true), h);
  }

  lemma OneLockMore(locks: map<Pid, Lock>, r: Pid, l: Lock)
    requires r !in locks
    ensures |locks[r := l]| == |locks| + 1
  {
    assert locks[r := l].Keys == locks.Keys + {r};
    assert |locks[r := l].Keys| == |locks.Keys| + 1;
  }

  lemma NoPage(w: World, r: Pid)
    requires Good(w) && r !in w.locks
    ensures r !in w.tree.pages && r !in w.tree.level
  {
    hide LocksOk, OpenOk, ThreadsOk, Tiled, Apart, Chained, WellFormed, Represents, TreeSteps.Sized;
  }

  /** What a finished structural change is like. */
  ghost predicate Restructured(w: World, w': World, t: Tid, op: Op, at: Stage, tree: Tree) {
    && w'.tree == tree && w'.m == w.m && w'.locks == w.locks && w'.open == {} && OthersRest(w, w', t)
    && t in w'.threads && w'.threads[t].Busy? && w'.threads[t].op == op && w'.threads[t].at == at
  }

  lemma CommittedFacts(w: World, t: Tid, op: Op, past: set<Option<Bytes>>, k: Pair, at: Stage, tree: Tree)
    requires t in w.threads && w.threads[t] == Busy(op, past, OnPair(k)) && k.spare.Some? && w.open == {k.spare.value}
    requires PairPages(k) <= tree.pages.Keys
    ensures Held(w.threads[t]) == PairPages(k)
    ensures Restructured(w, Committed(w, t, at, tree, w.m), t, op, at, tree)
  {
    OthersTouched(w, PairPages(k), w.m);
    hide TouchAll, Lookup;
  }

  lemma RestructuredTold(w: World, w': World, t: Tid, op: Op, at: Stage, tree: Tree)
    requires Restructured(w, w', t, op, at, tree)
    ensures w'.tree == tree && w'.m == w.m && w'.locks == w.locks && w'.open == {} && OthersRest(w, w', t)
    ensures t in w'.threads && w'.threads[t].Busy? && w'.threads[t] == Busy(op, w'.threads[t].past, at)
  {
    hide OthersRest;
  }

  /** The split may be done: the parent has room, and the left half fits. */
  ghost predicate MaySplit(w: World, k: Pair, ordered: bool) {
    && k.p != META && k.spare.Some? && k.right.None? && k.c in w.tree.pages && k.p in w.tree.pages
    && Cuttable(w.tree.pages[k.c]) && WellFormed(w.tree.pages[k.p])
    && var cut := CutOf(w.tree.pages[k.c], ordered);
       && HasSpaceFor(w.tree.pages[k.p], |cut.1|, 8) && SlotAllowed(cut.0)
       && CanSplit(w.tree, k.p, k.c, cut.0, cut.1, k.spare.value)
       && cut.0 < |w.tree.pages[k.c].keys|
       && var left := SplitLeft(w.tree.pages[k.c], cut.0, cut.1, k.spare.value);
          |left.keys| == |left.pays| && Fits(left) && !LeftOverflows(w.tree.pages[k.c], ordered)
  }

  lemma SplitHeld(w: World, t: Tid, op: Op, past: set<Option<Bytes>>, k: Pair, ordered: bool)
    requires t in w.threads && w.threads[t] == Busy(op, past, OnPair(k)) && MaySplit(w, k, ordered)
    requires k.extra <= w.tree.pages.Keys
    ensures var cut := CutOf(w.tree.pages[k.c], ordered);
      && CanSplit(w.tree, k.p, k.c, cut.0, cut.1, k.spare.value)
      && Held(w.threads[t]) == PairPages(k) <= SplitTree(w.tree, k.p, k.c, cut.0, cut.1, k.spare.value).pages.Keys
  {
    hide WellFormed, HasSpaceFor, Separator, FindSeparator, Fits, GoodCut, LeftOverflows, Sound, SplitLeft, SplitRight,
         SplitParent, CutOf, Cuttable, SlotAllowed;
  }

  /** The world after the split, with all pages still held. */
  function AfterSplit(w: World, t: Tid, op: Op, past: set<Option<Bytes>>, k: Pair, ordered: bool): World
    requires t in w.threads && w.threads[t] == Busy(op, past, OnPair(k)) && MaySplit(w, k, ordered)
    requires k.extra <= w.tree.pages.Keys
  {
    SplitHeld(w, t, op, past, k, ordered);
    hide WellFormed, HasSpaceFor, Separator, FindSeparator, Fits, GoodCut, LeftOverflows, Sound, CanSplit, SplitTree,
         PairPages, Held, SplitLeft, CutOf, Cuttable;
    var cut := CutOf(w.tree.pages[k.c], ordered);
    Committed(w, t, Unwinding(Back(PairPages(k), Anew(op), None)),
              SplitTree(w.tree, k.p, k.c, cut.0, cut.1, k.spare.value), w.m)
  }

  lemma CommitsNow(w: World, t: Tid, at: Stage, tree: Tree, m: map<Bytes, Bytes>)
    requires t in w.threads && w.threads[t].Busy? && Held(w.threads[t]) <= tree.pages.Keys
    ensures Commits(w, Committed(w, t, at, tree, m), t, at, tree, m)
  {
    hide Held, TouchAll, Lookup;
  }

  lemma SplitCommits(w: World, t: Tid, op: Op, past: set<Option<Bytes>>, k: Pair, ordered: bool)
    requires t in w.threads && w.threads[t] == Busy(op, past, OnPair(k)) && MaySplit(w, k, ordered)
    requires k.extra <= w.tree.pages.Keys
    ensures var cut := CutOf(w.tree.pages[k.c], ordered);
      && CanSplit(w.tree, k.p, k.c, cut.0, cut.1, k.spare.value)
      && Commits(w, AfterSplit(w, t, op, past, k, ordered), t, Unwinding(Back(PairPages(k), Anew(op), None)),
           SplitTree(w.tree, k.p, k.c, cut.0, cut.1, k.spare.value), w.m)
  {
    SplitHeld(w, t, op, past, k, ordered);
    hide Commits, Committed, Held, PairPages, CanSplit, SplitTree, Cuttable, CutOf, HasSpaceFor, WellFormed, Fits,
         LeftOverflows, SlotAllowed, SplitLeft;
    var cut := CutOf(w.tree.pages[k.c], ordered);
    CommitsNow(w, t, Unwinding(Back(PairPages(k), Anew(op), None)),
               SplitTree(w.tree, k.p, k.c, cut.0, cut.1, k.spare.value), w.m);
  }

  lemma SplitStep(w: World, w': World, t: Tid, op: Op, past: set<Option<Bytes>>, k: Pair, ordered: bool)
    requires t in w.threads && MaySplit(w, k, ordered)
    requires var cut := CutOf(w.tree.pages[k.c], ordered);
      Commits(w, w', t, Unwinding(Back(PairPages(k), Anew(op), None)),
              SplitTree(w.tree, k.p, k.c, cut.0, cut.1, k.spare.value), w.m)
    ensures PairStep(w, w', t, op, past, k, CommitSplit(ordered))
  {
    hide WellFormed, HasSpaceFor, Separator, FindSeparator, Fits, CanSplit, SplitTree, SplitLeft, Commits, PairPages,
         SlotAllowed, LeftOverflows, Cuttable;
  }

  lemma PairGoes(w: World, w': World, t: Tid, op: Op, past: set<Option<Bytes>>, k: Pair, e: Event)
    requires t in w.threads && w.threads[t] == Busy(op, past, OnPair(k)) && PairStep(w, w', t, op, past, k, e)
    requires e.CommitSplit? && k.c in w.tree.pages && Cuttable(w.tree.pages[k.c]) ==>
      !LeftOverflows(w.tree.pages[k.c], e.ordered)
    ensures Goes(w, w', t, e)
  {
    PairEvents(w, w', t, op, past, k, e) by { hide *; }
    hide PairStep, LeftOverflows, Cuttable;
  }

  lemma SplitGoes(w: World, t: Tid, op: Op, past: set<Option<Bytes>>, k: Pair, ordered: bool)
    requires t in w.threads && w.threads[t] == Busy(op, past, OnPair(k)) && MaySplit(w, k, ordered)
    requires k.extra <= w.tree.pages.Keys
    ensures Goes(w, AfterSplit(w, t, op, past, k, ordered), t, CommitSplit(ordered))
  {
    SplitCommits(w, t, op, past, k, ordered) by { hide *; }
    NoOverflow(w, k, ordered);
    hide *;
    SplitStep(w, AfterSplit(w, t, op, past, k, ordered), t, op, past, k, ordered);
    PairGoes(w, AfterSplit(w, t, op, past, k, ordered), t, op, past, k, CommitSplit(ordered));
  }

  lemma NoOverflow(w: World, k: Pair, ordered: bool)
    requires MaySplit(w, k, ordered)
    ensures k.c in w.tree.pages && Cuttable(w.tree.pages[k.c]) && !LeftOverflows(w.tree.pages[k.c], ordered)
  {
    hide Cuttable, LeftOverflows, WellFormed, HasSpaceFor, CanSplit, Fits, SplitLeft, CutOf, SlotAllowed;
  }

  lemma SplitFacts(w: World, t: Tid, op: Op, past: set<Option<Bytes>>, k: Pair, ordered: bool)
    requires t in w.threads && w.threads[t] == Busy(op, past, OnPair(k)) && MaySplit(w, k, ordered)
    requires k.extra <= w.tree.pages.Keys && k.spare.Some? && w.open == {k.spare.value}
    ensures var cut := CutOf(w.tree.pages[k.c], ordered);
      && CanSplit(w.tree, k.p, k.c, cut.0, cut.1, k.spare.value)
      && Restructured(w, AfterSplit(w, t, op, past, k, ordered), t, op, Unwinding(Back(PairPages(k), Anew(op), None)),
           SplitTree(w.tree, k.p, k.c, cut.0, cut.1, k.spare.value))
  {
    SplitHeld(w, t, op, past, k, ordered);
    hide Committed, Held, PairPages, CanSplit, SplitTree, Cuttable, CutOf, HasSpaceFor, WellFormed, Fits, LeftOverflows,
         SlotAllowed, SplitLeft, Restructured;
    var cut := CutOf(w.tree.pages[k.c], ordered);
    CommittedFacts(w, t, op, past, k, Unwinding(Back(PairPages(k), Anew(op), None)),
                   SplitTree(w.tree, k.p, k.c, cut.0, cut.1, k.spare.value));
  }

  lemma HeldStored(w: World, t: Tid, op: Op, past: set<Option<Bytes>>, k: Pair)
    requires Good(w) && t in w.threads && w.threads[t] == Busy(op, past, OnPair(k)) && op.goal.Put? && !k.gone
    ensures PairPages(k) <= w.locks.Keys && k.extra <= w.tree.pages.Keys
  {
    PairKnown(w, t, op, past, k) by { hide *; }
    hide TreeOk, LocksOk, OpenOk, ThreadsOk;
  }

  lemma RunsDone(w: World, w': World, t: Tid, n: nat)
    requires Can(w, w', t, n) && Good(w') && w'.m == w.m && OthersRest(w, w', t) && t in w'.threads
    ensures Runs(w, w', t, n)
  {
    hide Can, Good, OthersRest;
  }

  /** The page is split and everything is released. */
  lemma SplitAndLeave(w: World, t: Tid, op: Op, past: set<Option<Bytes>>, k: Pair, h: int, ordered: bool)
    returns (w': World, n: nat, past': set<Option<Bytes>>)
    requires HoldsSpare(w, t, op, past, k, h) && MaySplit(w, k, ordered) && h > 0
    ensures Runs(w, w', t, n) && Poised(w', t, op, past', Anew(op), h - 1) && w'.locks.Keys == w.locks.Keys
    ensures k.c in w.tree.pages && Cuttable(w.tree.pages[k.c])
    ensures var cut := CutOf(w.tree.pages[k.c], ordered);
      && CanSplit(w.tree, k.p, k.c, cut.0, cut.1, k.spare.value)
      && w'.tree == SplitTree(w.tree, k.p, k.c, cut.0, cut.1, k.spare.value)
  {
    hide *;
    SpareTold(w, t, op, past, k, h);
    HeldStored(w, t, op, past, k);
    NoOverflow(w, k, ordered);
    SplitGoes(w, t, op, past, k, ordered);
    SplitFacts(w, t, op, past, k, ordered);
    var u := AfterSplit(w, t, op, past, k, ordered);
    var cut, back := CutOf(w.tree.pages[k.c], ordered), Back(PairPages(k), Anew(op), None);
    RestructuredTold(w, u, t, op, Unwinding(back), SplitTree(w.tree, k.p, k.c, cut.0, cut.1, k.spare.value));
    StepCan(w, u, t, CommitSplit(ordered));
    RunsDone(w, u, t, 1);
    past' := u.threads[t].past;
    CalmSinks(w, PairPages(k), h);
    SameLocksSink(w, u, PairPages(k), h);
    NowLeaves(u, t, op, past', back, h);
    var n2: nat;
    w', n2 := LetAllGo(u, t, op, past', back, h);
    n := 1 + n2;
    RunsThen(w, u, w', t, 1, n2);
    StaysTold(u, w');
    NowPoised(w, w', t, op, past', Anew(op), h - 1, n);
  }

  /** With room in the parent and tame keys the split may be done. */
  lemma SplitAllowed(w: World, t: Tid, op: Op, past: set<Option<Bytes>>, k: Pair, ordered: bool)
    requires Good(w) && t in w.threads && w.threads[t] == Busy(op, past, OnPair(k)) && op.goal.Put? && !k.gone
    requires k.p != META && k.spare.Some? && k.right.None? && TameKeys(w.m.Keys)
    requires k.c in w.tree.pages && Cuttable(w.tree.pages[k.c]) && k.p in w.tree.pages && WellFormed(w.tree.pages[k.p])
    requires HasSpaceFor(w.tree.pages[k.p], |CutOf(w.tree.pages[k.c], ordered).1|, 8)
    ensures MaySplit(w, k, ordered)
  {
    PairKnown(w, t, op, past, k) by { hide *; }
    SplitReady(w, t, op, past, k, ordered) by { hide *; }
    LeftFitsUnless(w, t, op, past, k, ordered) by { hide *; }
    CleanRuns.SplitCalm(w, t, op, past, k, ordered) by { hide *; }
    hide Good, HasSpaceFor, WellFormed, Fits, LeftOverflows, SlotAllowed, SplitLeft, CanSplit, FindSeparator, Separator,
         TameKeys, TreeSteps.Sized, Represents, TreeSteps.Cuts, Hangs, PairPages, Inner;
  }

  /** A page that is not in the tree does not matter for a cut. */
  lemma SpareCut(t: Tree, p: Pid, c: Pid, slot: nat, sep: Bytes, r: Pid, n: Node)
    requires CanSplit(t, p, c, slot, sep, r) && r !in t.pages
    requires CanSplit(t.(pages := t.pages[r := n]), p, c, slot, sep, r)
    ensures SplitTree(t.(pages := t.pages[r := n]), p, c, slot, sep, r) == SplitTree(t, p, c, slot, sep, r)
  {
    hide Tiled, Apart, Chained, Sorted, Within, SplitLeft, SplitRight, SplitParent, WellFormed, Kid, Slot;
  }

  lemma CutAnyway(w: World, k: Pair, ordered: bool, r: Pid)
    requires Good(w) && Hangs(w.tree, k.p, k.trip.route, k.pos, k.c) && k.p != META && k.c in w.tree.level
    requires k.p in w.tree.level && w.tree.level[k.c] + 1 == w.tree.level[k.p] && k.c in w.tree.pages
    requires Cuttable(w.tree.pages[k.c]) && r !in w.tree.level && r != NO_NEIGHBOUR
    ensures TreeSteps.Leads(w.tree, k.p, k.trip.route, k.c) && TreeSteps.Cuts(w.tree, k.p, k.c)
    ensures var cut := CutOf(w.tree.pages[k.c], ordered);
      && cut.0 == TreeSteps.CutSlot(w.tree, k.c, ordered) && cut.1 == TreeSteps.CutKey(w.tree, k.c, ordered)
      && CanSplit(w.tree, k.p, k.c, cut.0, cut.1, r)
  {
    hide LocksOk, MemOk, OpenOk, ThreadsOk, Represents, TreeSteps.Sized, Tiled, Apart, Chained, Sorted, Within, Less,
         FindSeparator, Separator, GoodCut, Slot;
    TreeSteps.CutReady(w.tree, k.p, k.c, k.trip.route, ordered, r);
  }

  /** The page is split under a parent that has room. */
  lemma SplitHere(w: World, t: Tid, op: Op, past: set<Option<Bytes>>, k: Pair, h: int, ordered: bool)
    returns (w': World, n: nat, past': set<Option<Bytes>>, r: Pid)
    requires HoldsPair(w, t, op, past, k, h) && h > 0 && k.p != META && TameKeys(w.m.Keys) && |w.locks| < NO_NEIGHBOUR
    requires k.c in w.tree.pages && Cuttable(w.tree.pages[k.c]) && k.p in w.tree.pages && WellFormed(w.tree.pages[k.p])
    requires HasSpaceFor(w.tree.pages[k.p], |CutOf(w.tree.pages[k.c], ordered).1|, 8)
    ensures Runs(w, w', t, n) && Poised(w', t, op, past', Anew(op), h - 1) && |w'.locks| == |w.locks| + 1
    ensures BTrees.SplitsUnder(w.tree, w'.tree, k.trip.route, k.p, k.c, r, ordered)
  {
    hide *;
    PairTold(w, t, op, past, k, h);
    PairKnown(w, t, op, past, k);
    var u, node;
    u, r, node := GetPage(w, t, op, past, k, h);
    var k1 := k.(spare := Some(r), wrote := true);
    SpareTold(u, t, op, past, k1, h);
    RunsKept(w, u, t, 1);
    assert u.tree.pages[k.c] == w.tree.pages[k.c] && u.tree.pages[k.p] == w.tree.pages[k.p];
    SplitAllowed(u, t, op, past, k1, ordered);
    var n2: nat;
    w', n2, past' := SplitAndLeave(u, t, op, past, k1, h, ordered);
    n := 1 + n2;
    RunsThen(w, u, w', t, 1, n2);
    CutAnyway(w, k, ordered, r);
    var cut := CutOf(w.tree.pages[k.c], ordered);
    SpareCut(w.tree, k.p, k.c, cut.0, cut.1, r, node);
    NowUnder(w.tree, w'.tree, k, r, ordered, cut.0, cut.1);
    SameCount(u.locks, w'.locks);
  }

  lemma RunsKept(w: World, w': World, t: Tid, n: nat)
    requires Runs(w, w', t, n)
    ensures w'.m == w.m && OthersRest(w, w', t) && Can(w, w', t, n) && Good(w') && t in w'.threads
  {
    hide Good, Can, OthersRest;
  }

  lemma SameCount(a: map<Pid, Lock>, b: map<Pid, Lock>)
    requires a.Keys == b.Keys
    ensures |a| == |b|
  {
    assert |a.Keys| == |b.Keys|;
  }

  lemma NowUnder(t: Tree, u: Tree, k: Pair, r: Pid, ordered: bool, slot: nat, sep: Bytes)
    requires TreeSteps.Leads(t, k.p, k.trip.route, k.c) && TreeSteps.Cuts(t, k.p, k.c) && k.c in t.pages
    requires slot == TreeSteps.CutSlot(t, k.c, ordered) && sep == TreeSteps.CutKey(t, k.c, ordered)
    requires CanSplit(t, k.p, k.c, slot, sep, r) && u == SplitTree(t, k.p, k.c, slot, sep, r)
    ensures BTrees.SplitsUnder(t, u, k.trip.route, k.p, k.c, r, ordered)
  {
    hide TreeSteps.Leads, TreeSteps.Cuts, TreeSteps.CutSlot, TreeSteps.CutKey, CanSplit, SplitTree;
  }

  // ----- a new root -----

  /** The pair as seen from the new root. */
  function UnderRoot(k: Pair): Pair
    requires k.spare.Some?
  {
    k.(p := k.spare.value, pos := 0, spare := None, extra := k.extra + {META}, wrote := false)
  }

  /** The root may be put above the old one. */
  ghost predicate MayGrow(w: World, k: Pair) {
    && k.p == META && k.spare.Some? && k.right.None? && Shaped(w.tree) && META in w.tree.pages
    && w.tree.pages[META].link == k.c && k.spare.value !in w.tree.level && PairPages(k) <= w.tree.pages.Keys
  }

  function AfterRoot(w: World, t: Tid, op: Op, past: set<Option<Bytes>>, k: Pair): World
    requires t in w.threads && w.threads[t] == Busy(op, past, OnPair(k)) && MayGrow(w, k)
  {
    GrowHeld(w, t, op, past, k);
    hide Shaped, PairPages, GrowRoot, Held;
    Committed(w, t, OnPair(UnderRoot(k)), GrowRoot(w.tree, k.spare.value), w.m)
  }

  lemma GrowHeld(w: World, t: Tid, op: Op, past: set<Option<Bytes>>, k: Pair)
    requires t in w.threads && w.threads[t] == Busy(op, past, OnPair(k)) && MayGrow(w, k)
    ensures Held(w.threads[t]) == PairPages(k) <= GrowRoot(w.tree, k.spare.value).pages.Keys
  {
    hide Shaped, PairPages;
  }

  lemma RootGoes(w: World, t: Tid, op: Op, past: set<Option<Bytes>>, k: Pair)
    requires t in w.threads && w.threads[t] == Busy(op, past, OnPair(k)) && MayGrow(w, k)
    ensures Goes(w, AfterRoot(w, t, op, past, k), t, CommitRoot)
  {
    hide *;
    RootCommits(w, t, op, past, k);
    RootStep(w, AfterRoot(w, t, op, past, k), t, op, past, k);
    PairGoes(w, AfterRoot(w, t, op, past, k), t, op, past, k, CommitRoot);
  }

  lemma RootCommits(w: World, t: Tid, op: Op, past: set<Option<Bytes>>, k: Pair)
    requires t in w.threads && w.threads[t] == Busy(op, past, OnPair(k)) && MayGrow(w, k)
    ensures k.spare.Some? && Shaped(w.tree)
    ensures Commits(w, AfterRoot(w, t, op, past, k), t, OnPair(UnderRoot(k)), GrowRoot(w.tree, k.spare.value), w.m)
  {
    GrowHeld(w, t, op, past, k);
    hide Commits, Committed, Held, PairPages, Shaped, GrowRoot;
    CommitsNow(w, t, OnPair(UnderRoot(k)), GrowRoot(w.tree, k.spare.value), w.m);
  }

  lemma RootStep(w: World, w': World, t: Tid, op: Op, past: set<Option<Bytes>>, k: Pair)
    requires t in w.threads && MayGrow(w, k)
    requires Commits(w, w', t, OnPair(UnderRoot(k)), GrowRoot(w.tree, k.spare.value), w.m)
    ensures PairStep(w, w', t, op, past, k, CommitRoot)
  {
    hide Commits, PairPages, Shaped, GrowRoot;
  }

  lemma RootFacts2(w: World, t: Tid, op: Op, past: set<Option<Bytes>>, k: Pair)
    requires t in w.threads && w.threads[t] == Busy(op, past, OnPair(k)) && MayGrow(w, k) && w.open == {k.spare.value}
    ensures k.spare.Some? && Shaped(w.tree)
    ensures Restructured(w, AfterRoot(w, t, op, past, k), t, op, OnPair(UnderRoot(k)), GrowRoot(w.tree, k.spare.value))
    ensures PairPages(UnderRoot(k)) == PairPages(k)
  {
    GrowHeld(w, t, op, past, k);
    SameHeld(w, k);
    hide Committed, Held, PairPages, Shaped, GrowRoot, Restructured;
    CommittedFacts(w, t, op, past, k, OnPair(UnderRoot(k)), GrowRoot(w.tree, k.spare.value));
  }

  lemma SameHeld(w: World, k: Pair)
    requires MayGrow(w, k)
    ensures PairPages(UnderRoot(k)) == PairPages(k)
  {
    hide Shaped;
  }

  lemma GrowAllowed(w: World, t: Tid, op: Op, past: set<Option<Bytes>>, k: Pair)
    requires Good(w) && t in w.threads && w.threads[t] == Busy(op, past, OnPair(k)) && op.goal.Put? && !k.gone
    requires k.p == META && k.spare.Some? && k.right.None?
    ensures MayGrow(w, k)
  {
    HeldTree(w, t, op, past, k) by { hide *; }
    PairFacts(w, t, op, past, k) by { hide *; }
    RootFacts(w, k) by { hide *; }
    hide Good, PairOk, Reason, Legal, Lookup, Within, Owns, TripOk, Represents, Tiled, Apart, Chained, PairPages;
  }

  lemma HeldTree(w: World, t: Tid, op: Op, past: set<Option<Bytes>>, k: Pair)
    requires Good(w) && t in w.threads && w.threads[t] == Busy(op, past, OnPair(k)) && op.goal.Put? && !k.gone
    ensures PairPages(k) <= w.tree.pages.Keys
  {
    HeldStored(w, t, op, past, k) by { hide *; }
    hide TreeOk, LocksOk, OpenOk, ThreadsOk, PairPages;
  }

  lemma SpareGrow(t: Tree, r: Pid, n: Node)
    requires Shaped(t) && Shaped(t.(pages := t.pages[r := n])) && r !in t.pages
    ensures GrowRoot(t.(pages := t.pages[r := n]), r) == GrowRoot(t, r)
  {
    hide WellFormed;
  }

  /** The tree gets a new root, and the thread holds it instead of the metadata page's old child's parent. */
  lemma GrowFirst(w: World, t: Tid, op: Op, past: set<Option<Bytes>>, k: Pair, h: int)
    returns (w': World, past': set<Option<Bytes>>, k': Pair, r: Pid)
    requires HoldsPair(w, t, op, past, k, h) && k.p == META && |w.locks| < NO_NEIGHBOUR
    ensures Runs(w, w', t, 2) && HoldsPair(w', t, op, past', k', h) && |w'.locks| == |w.locks| + 1
    ensures k'.p == r && k'.c == k.c && k'.trip == k.trip && r !in w.tree.level && r != META
    ensures Shaped(w.tree) && w'.tree == GrowRoot(w.tree, r)
  {
    hide *;
    PairTold(w, t, op, past, k, h);
    PairKnown(w, t, op, past, k);
    var u, node;
    u, r, node := GetPage(w, t, op, past, k, h);
    var k1 := k.(spare := Some(r), wrote := true);
    SpareTold(u, t, op, past, k1, h);
    RunsKept(w, u, t, 1);
    GrowAllowed(u, t, op, past, k1);
    RootGoes(u, t, op, past, k1);
    RootFacts2(u, t, op, past, k1);
    k' := UnderRoot(k1);
    w' := AfterRoot(u, t, op, past, k1);
    RestructuredTold(u, w', t, op, OnPair(k'), GrowRoot(u.tree, r));
    StepCan(u, w', t, CommitRoot);
    RunsDone(u, w', t, 1);
    RunsThen(w, u, w', t, 1, 1);
    past' := w'.threads[t].past;
    SameLocksHeld(u, w', PairPages(k1), h);
    RootPairTold(k1);
    PairNow(w', t, op, past', k', h);
    TreeShaped(w);
    SpareGrow(w.tree, r, node);
  }

  lemma SameLocksHeld(w: World, w': World, held: set<Pid>, h: int)
    requires Calm(w, held, h) && w'.locks == w.locks
    ensures Calm(w', held, h)
  {
    hide CalmLock, VersionOf;
  }

  lemma RootPairTold(k: Pair)
    requires k.spare.Some?
    ensures var k' := UnderRoot(k);
      && k'.p == k.spare.value && k'.c == k.c && k'.trip == k.trip && k'.right == k.right && k'.spare.None?
      && !k'.wrote && k'.gone == k.gone && k'.more == k.more
  {
  }

  lemma TreeShaped(w: World)
    requires Good(w)
    ensures Shaped(w.tree) && META in w.tree.level
  {
    hide LocksOk, MemOk, OpenOk, ThreadsOk, Tiled, Apart, Chained, Represents, TreeSteps.Sized;
  }

  // ----- one pass: a split at the lowest page whose parent has room -----

  lemma GoodTree(w: World)
    requires Good(w)
    ensures Sound(w.tree) && Represents(w.tree, w.m) && TreeSteps.Sized(w.tree)
  {
    hide LocksOk, MemOk, OpenOk, ThreadsOk, Sound, Represents, TreeSteps.Sized;
  }

  ghost predicate Bounded(t: Tree, key: Bytes, b: int) {
    Sound(t) && TreeSteps.Bound(t, key) <= b
  }

  /** A page on the way to both keys, that the trip is about. */
  ghost predicate Aims(w: World, op: Op, trip: Trip, p: Pid) {
    && p != META && TreeSteps.OnPath(w.tree, p, op.key) && TreeSteps.OnPath(w.tree, p, trip.route)
        && Full(w, op, trip, p)
  }

  lemma AimsTold(w: World, op: Op, trip: Trip, p: Pid)
    requires Aims(w, op, trip, p) && Good(w)
    ensures p != META && Live(w.tree, p, op.key) && Live(w.tree, p, trip.route) && Full(w, op, trip, p)
    ensures META in w.tree.level && p in w.tree.level && w.tree.level[p] < w.tree.level[META]
    ensures TreeSteps.OnPath(w.tree, p, op.key)
  {
    PathLive(w, p, op.key) by { hide Good, Full, Live; }
    PathLive(w, p, trip.route) by { hide Good, Full, Live; }
    BelowMeta(w, p, op.key) by { hide Good, Full, Live; }
    hide Good, Full, Live, TreeSteps.OnPath;
  }

  lemma PathLive(w: World, p: Pid, key: Bytes)
    requires Good(w) && TreeSteps.OnPath(w.tree, p, key)
    ensures Live(w.tree, p, key)
  {
    hide LocksOk, MemOk, OpenOk, ThreadsOk, Tiled, Apart, Chained, Within, Represents, TreeSteps.Sized;
  }

  /** The thread comes to the page and locks it and its parent. */
  lemma LockBoth(w: World, t: Tid, op: Op, past: set<Option<Bytes>>, trip: Trip, p: Pid, h: int)
    returns (w': World, n: nat, k: Pair)
    requires Poised(w, t, op, past, trip, h) && Aims(w, op, trip, p)
    ensures Runs(w, w', t, n) && Stays(w, w') && HoldsPair(w', t, op, past, k, h)
    ensures k.trip == trip && k.c == p && k.extra == {}
  {
    hide *;
    PoisedTold(w, t, op, past, trip, h);
    AimsTold(w, op, trip, p);
    var u, n1, walk := ComeTo(w, t, op, past, trip, p, h);
    StaysTold(w, u);
    SameFull(w, u, op, trip, p);
    var v, top := LockAbove(u, t, op, past, trip, p, walk, h);
    w', k := LockBelow(v, t, op, past, trip, p, top, h);
    n := n1 + 1 + 1;
    RunsThen(w, u, v, t, n1, 1);
    RunsThen(w, v, w', t, n1 + 1, 1);
    StaysThen(w, u, v);
    StaysThen(w, v, w');
  }

  /** A full page can be split. */
  lemma FullSplits(w: World, op: Op, trip: Trip, c: Pid, p: Pid)
    requires Good(w) && Full(w, op, trip, c) && Legal(op) && TripOk(op, trip)
        && TreeSteps.Leads(w.tree, p, trip.route, c)
    ensures c in w.tree.pages && BTrees.Splittable(w.tree.pages[c], p)
  {
    GoodTree(w) by { hide *; }
    NoSpace(w.tree.pages[c], if trip.target.Some? then |trip.route| else |op.key|,
            if trip.target.Some? then 8 else |op.goal.v|) by { hide Good, HasSpaceFor, Capacity, TreeSteps.Leads; }
    hide Good, Sound, TreeSteps.Sized, TreeSteps.Leads, HasSpaceFor, BTrees.Splittable, Represents, Capacity;
    if trip.target.Some? {
      BTrees.FullSplittable(w.tree, c, p, trip.route, |trip.route|, 8);
    } else {
      BTrees.FullSplittable(w.tree, c, p, trip.route, |op.key|, |op.goal.v|);
    }
  }

  lemma NoSpace(n: Node, keyLen: nat, payLen: nat)
    requires |n.keys| == |n.pays|
    ensures keyLen + payLen > Capacity(n) <==> !HasSpaceFor(n, keyLen, payLen)
  {
    hide Size, Prefix;
  }

  lemma StartLegal(w: World, t: Tid, op: Op, past: set<Option<Bytes>>, trip: Trip)
    requires Good(w) && t in w.threads && w.threads[t] == Busy(op, past, Starting(trip))
    ensures Legal(op) && TripOk(op, trip)
  {
    StateOfBusy(w, t, op, past, Starting(trip)) by { hide *; }
    hide Good, Legal, TripOk, Lookup;
  }

  /** What splits on the way to one key of a page splits on the way to the other. */
  lemma UnderKey(w: World, u: Tree, route: Bytes, key: Bytes, p: Pid, c: Pid, r: Pid, ordered: bool)
    requires Good(w) && BTrees.SplitsUnder(w.tree, u, route, p, c, r, ordered) && Live(w.tree, c, key)
    ensures BTrees.SplitsUnder(w.tree, u, key, p, c, r, ordered) && TreeSteps.Leads(w.tree, p, key, c)
  {
    LeadsAlike(w, route, key, p, c);
    hide Good, TreeSteps.Leads, TreeSteps.Cuts, CanSplit, SplitTree, TreeSteps.CutSlot, TreeSteps.CutKey, Live;
  }

  lemma LeadsAlike(w: World, route: Bytes, key: Bytes, p: Pid, c: Pid)
    requires Good(w) && TreeSteps.Leads(w.tree, p, route, c) && Live(w.tree, c, key)
    ensures TreeSteps.Leads(w.tree, p, key, c)
  {
    GoodTree(w) by { hide *; }
    hide Good, Sound, Represents, TreeSteps.Sized, TreeSteps.Leads, Within;
    BTrees.LeadsLevels(w.tree, p, route, c);
    TreeSteps.RouteShares(w.tree, p, c, route, key);
  }

  lemma HangsLeads(t: Tree, p: Pid, key: Bytes, pos: nat, c: Pid)
    requires Hangs(t, p, key, pos, c)
    ensures TreeSteps.Leads(t, p, key, c)
  {
    hide Within, Kid, Slot;
  }

  /** The parent has room: one split. */
  lemma PassUnder(w: World, t: Tid, op: Op, past: set<Option<Bytes>>, k: Pair, h: int, b: int, ordered: bool)
    returns (w': World, n: nat, past': set<Option<Bytes>>)
    requires HoldsPair(w, t, op, past, k, h) && h > 0 && k.p != META && TameKeys(w.m.Keys) && |w.locks| < NO_NEIGHBOUR
    requires k.c in w.tree.pages && Cuttable(w.tree.pages[k.c]) && k.p in w.tree.pages && WellFormed(w.tree.pages[k.p])
    requires HasSpaceFor(w.tree.pages[k.p], |CutOf(w.tree.pages[k.c], ordered).1|, 8)
    requires Live(w.tree, k.c, op.key) && Bounded(w.tree, op.key, b)
    ensures Runs(w, w', t, n) && Poised(w', t, op, past', Anew(op), h - 1) && |w'.locks| <= |w.locks| + 2
    ensures BTrees.Advances(w.tree, w'.tree, op.key, k.c, k.c, b, ordered)
  {
    hide *;
    PairTold(w, t, op, past, k, h);
    var r;
    w', n, past', r := SplitHere(w, t, op, past, k, h, ordered);
    RunsKept(w, w', t, n);
    UnderKey(w, w'.tree, k.trip.route, op.key, k.p, k.c, r, ordered);
    GoodTree(w);
    GoodTree(w');
    BoundTold(w.tree, op.key, b);
    BTrees.UnderAdvances(w.tree, w'.tree, op.key, k.p, k.c, r, b, ordered);
  }

  lemma BoundTold(t: Tree, key: Bytes, b: int)
    requires Bounded(t, key, b)
    ensures Sound(t) && TreeSteps.Bound(t, key) <= b
  {
    hide Sound, TreeSteps.Bound;
  }

  /** The new root has room for the separator of the old one, which has not changed. */
  lemma RootRoom(w: World, w': World, c: Pid, root: Pid, key: Bytes, ordered: bool)
    requires Good(w) && Good(w') && Shaped(w.tree) && w'.tree == GrowRoot(w.tree, root) && root !in w.tree.level
    requires Live(w.tree, c, key) && c != META && c in w'.tree.pages && Cuttable(w'.tree.pages[c])
    ensures root in w'.tree.pages && WellFormed(w'.tree.pages[root]) && Live(w'.tree, c, key)
    ensures HasSpaceFor(w'.tree.pages[root], |CutOf(w'.tree.pages[c], ordered).1|, 8)
  {
    GoodTree(w') by { hide *; }
    SizedAt(w', c) by { hide *; }
    hide Good, Sound, Represents, TreeSteps.Sized, TreeSteps.SizedPage, HasSpaceFor, Within, FindSeparator, Separator, Sorted;
    var n := w'.tree.pages[root];
    assert c != root;
    TreeSteps.FreshRoomy(n.link);
    BTrees.NewRootRoom(w'.tree, c, n, ordered);
  }

  lemma SizedAt(w: World, c: Pid)
    requires Good(w) && c in w.tree.level
    ensures c in w.tree.pages && TreeSteps.SizedPage(w.tree, c)
  {
    hide LocksOk, MemOk, OpenOk, ThreadsOk, Represents, Tiled, Apart, Chained, WellFormed, TreeSteps.SizedPage;
  }

  /** The page is the root: a new root, and one split. */
  lemma PassRoot(w: World, t: Tid, op: Op, past: set<Option<Bytes>>, k: Pair, h: int, b: int, ordered: bool)
    returns (w': World, n: nat, past': set<Option<Bytes>>)
    requires HoldsPair(w, t, op, past, k, h) && h > 0 && k.p == META && TameKeys(w.m.Keys)
        && |w.locks| + 1 < NO_NEIGHBOUR
    requires k.c in w.tree.pages && BTrees.Splittable(w.tree.pages[k.c], META) && k.c != META
    requires Live(w.tree, k.c, op.key) && Bounded(w.tree, op.key, b) && TreeSteps.Leads(w.tree, META, op.key, k.c)
    ensures Runs(w, w', t, n) && Poised(w', t, op, past', Anew(op), h - 1) && |w'.locks| <= |w.locks| + 2
    ensures BTrees.Advances(w.tree, w'.tree, op.key, k.c, k.c, b, ordered)
  {
    hide *;
    PairTold(w, t, op, past, k, h);
    var g, past1, k1, root := GrowFirst(w, t, op, past, k, h);
    RunsKept(w, g, t, 2);
    PairTold(g, t, op, past1, k1, h);
    PairKnown(g, t, op, past1, k1);
    RootRoom(w, g, k.c, root, op.key, ordered);
    var n2: nat, r;
    w', n2, past', r := SplitHere(g, t, op, past1, k1, h, ordered);
    n := 2 + n2;
    RunsThen(w, g, w', t, 2, n2);
    RunsKept(w, w', t, n);
    UnderKey(g, w'.tree, k1.trip.route, op.key, root, k.c, r, ordered);
    GoodTree(w);
    GoodTree(g);
    GoodTree(w');
    BoundTold(w.tree, op.key, b);
    BTrees.RootAdvances(w.tree, w'.tree, op.key, root, k.c, r, b, ordered);
  }

  lemma CalmLess(w: World, t: Tid, op: Op, past: set<Option<Bytes>>, trip: Trip, h: int, h': int)
    requires Poised(w, t, op, past, trip, h) && h' <= h
    ensures Poised(w, t, op, past, trip, h')
  {
    hide Good, StateOf, VersionOf;
  }

  /** The parent is full itself: the next trip is for it. */
  lemma ParentNext(w: World, w': World, op: Op, c: Pid, p: Pid, ordered: bool)
    requires Good(w) && Stays(w, w') && TreeSteps.Leads(w.tree, p, op.key, c) && TreeSteps.Cuts(w.tree, p, c)
    requires c in w.tree.pages && Cuttable(w.tree.pages[c]) && p in w.tree.pages
        && |w.tree.pages[p].keys| == |w.tree.pages[p].pays|
    requires !HasSpaceFor(w.tree.pages[p], |CutOf(w.tree.pages[c], ordered).1|, 8) && op.goal.Put?
    ensures Aims(w', op, Trip(CutOf(w.tree.pages[c], ordered).1, Some(p)), p)
    ensures !HasSpaceFor(w.tree.pages[p], |TreeSteps.CutKey(w.tree, c, ordered)|, 8)
  {
    GoodTree(w) by { hide *; }
    BTrees.SepOnPath(w.tree, p, c, op.key, ordered) by { hide *; }
    BTrees.LeadsOnPath(w.tree, p, op.key, c) by { hide *; }
    NoSpace(w.tree.pages[p], |CutOf(w.tree.pages[c], ordered).1|, 8) by { hide *; }
    hide Good, Sound, Represents, TreeSteps.Sized, TreeSteps.Leads, HasSpaceFor, Capacity, FindSeparator, Separator, Within;
  }

  /** Without room on the page at the end of the trip, the thread gets one split done, and starts again. */
  lemma {:induction false} Pass(w: World, t: Tid, op: Op, past: set<Option<Bytes>>, trip: Trip, p: Pid, h: int, b: int,
                                ordered: bool) returns (w': World, n: nat, past': set<Option<Bytes>>, at: Pid)
    requires Poised(w, t, op, past, trip, h) && Aims(w, op, trip, p) && TameKeys(w.m.Keys) && Bounded(w.tree, op.key, b)
    requires META in w.tree.level && p in w.tree.level && h > w.tree.level[META] - w.tree.level[p]
    requires |w.locks| + 2 <= NO_NEIGHBOUR
    ensures Runs(w, w', t, n) && |w'.locks| <= |w.locks| + 2
    ensures Poised(w', t, op, past', Anew(op), h - (w.tree.level[META] - w.tree.level[p]))
    ensures BTrees.Advances(w.tree, w'.tree, op.key, p, at, b, ordered)
    decreases w.tree.level[META] - w.tree.level[p]
  {
    hide *;
    PoisedTold(w, t, op, past, trip, h);
    StartLegal(w, t, op, past, trip);
    AimsTold(w, op, trip, p);
    var levels := w.tree.level[META] - w.tree.level[p];
    var u, n1, k := LockBoth(w, t, op, past, trip, p, h);
    StaysTold(w, u);
    SameCount(w.locks, u.locks);
    RunsKept(w, u, t, n1);
    PairTold(u, t, op, past, k, h);
    PairKnown(u, t, op, past, k);
    HangsLeads(u.tree, k.p, trip.route, k.pos, p);
    LeadsAlike(u, trip.route, op.key, k.p, p);
    GoodTree(u);
    BTrees.LeadsLevels(u.tree, k.p, op.key, p);
    at := p;
    var n2: nat;
    if k.p == META {
      FullSplits(w, op, trip, p, META);
      w', n2, past' := PassRoot(u, t, op, past, k, h, b, ordered);
      CalmLess(w', t, op, past', Anew(op), h - 1, h - levels);
    } else if HasSpaceFor(u.tree.pages[k.p], |CutOf(u.tree.pages[p], ordered).1|, 8) {
      w', n2, past' := PassUnder(u, t, op, past, k, h, b, ordered);
      CalmLess(w', t, op, past', Anew(op), h - 1, h - levels);
    } else {
      PairCuts(u, k);
      var v, n3 := AimHigher(u, t, op, past, k, h, ordered);
      StaysTold(u, v);
      SameCount(u.locks, v.locks);
      RunsKept(u, v, t, n3);
      ParentNext(u, v, op, p, k.p, ordered);
      AimsTold(v, op, Trip(CutOf(u.tree.pages[p], ordered).1, Some(k.p)), k.p) by { PoisedGood(v, t, op, past, h - 1); }
      var n4: nat;
      w', n4, past', at := Pass(v, t, op, past, Trip(CutOf(u.tree.pages[p], ordered).1, Some(k.p)), k.p, h - 1, b,
          ordered);
      n2 := n3 + n4;
      RunsThen(u, v, w', t, n3, n4);
      BTrees.AboveAdvances(w.tree, w'.tree, op.key, p, k.p, at, b, ordered);
    }
    n := n1 + n2;
    RunsThen(w, u, w', t, n1, n2);
  }

  lemma PoisedGood(w: World, t: Tid, op: Op, past: set<Option<Bytes>>, h: int)
    requires exists trip :: Poised(w, t, op, past, trip, h)
    ensures Good(w)
  {
    hide Good, Calm;
  }

  lemma PairCuts(w: World, k: Pair)
    requires Good(w) && k.p != META && k.c in w.tree.level && k.p in w.tree.level
        && w.tree.level[k.c] + 1 == w.tree.level[k.p]
    requires k.c in w.tree.pages && Cuttable(w.tree.pages[k.c])
    ensures TreeSteps.Cuts(w.tree, k.p, k.c)
  {
    GoodTree(w) by { hide *; }
    hide Good, Sound, WellFormed, Represents, TreeSteps.Sized;
  }

  // ----- a whole insert -----

  lemma {:induction false} LeafBelow(t: Tree, p: Pid, key: Bytes) returns (c: Pid)
    requires Sound(t) && TreeSteps.OnPath(t, p, key)
    ensures TreeSteps.OnPath(t, c, key) && t.level[c] == 0
    decreases t.level[p]
  {
    hide Sound, Within, Inner, Route, TreeSteps.Leads;
    if t.level[p] == 0 {
      c := p;
    } else {
      TreeSteps.Below(t, p, key);
      c := LeafBelow(t, Route(t.pages[p], key), key);
    }
  }

  lemma LeafFor(w: World, key: Bytes) returns (c: Pid)
    requires Good(w)
    ensures TreeSteps.OnPath(w.tree, c, key) && w.tree.level[c] == 0 && c != META && Live(w.tree, c, key)
    ensures |w.tree.pages[c].keys| == |w.tree.pages[c].pays|
  {
    GoodTree(w) by { hide *; }
    MetaAbove(w) by { hide *; }
    TreeSteps.MetaOnPath(w.tree, key) by { hide *; }
    c := LeafBelow(w.tree, META, key) by { hide *; }
    LivePage(w, c, key) by { hide Good, Sound, Within; }
    LeafPairs(w, c) by { hide Sound, Represents, TreeSteps.Sized, Within, Good; }
    hide Good, Sound, Represents, TreeSteps.Sized, Within;
  }

  lemma LeafPairs(w: World, c: Pid)
    requires Good(w) && c in w.tree.level
    ensures c in w.tree.pages && |w.tree.pages[c].keys| == |w.tree.pages[c].pays|
  {
    hide LocksOk, MemOk, OpenOk, ThreadsOk, Represents, TreeSteps.Sized, Tiled, Apart, Chained, Sorted, Within;
  }

  /** At most `d` splits are left to do, each with at most `b` releases of a page and two new pages: enough versions,
      and enough page ids. */
  ghost predicate Enough(w: World, key: Bytes, b: int, d: nat, h: int) {
    && Bounded(w.tree, key, b) && TreeSteps.Distance(w.tree, key, b) <= d
    && h >= (d + 1) * b + 1 && |w.locks| + 2 * (d + 1) <= NO_NEIGHBOUR
  }

  lemma Spend(b: int, d: nat, d': nat, levels: int, h: int)
    requires 0 <= levels <= b && d' < d && h >= (d + 1) * b + 1
    ensures h - levels >= (d' + 1) * b + 1
  {
    var x := d - d';
    Scale(b, x);
    Distribute(b, d' + 1, x);
    assert d' + 1 + x == d + 1;
  }

  lemma Scale(b: int, x: int)
    requires b >= 0 && x >= 1
    ensures x * b >= b
  {
  }

  lemma Distribute(b: int, x: int, y: int)
    ensures (x + y) * b == x * b + y * b
  {
  }

  lemma Afford(w: World, key: Bytes, b: int, d: nat, h: int)
    requires Good(w) && Enough(w, key, b, d, h)
    ensures META in w.tree.level && h > w.tree.level[META] && 1 < h && w.tree.level[META] <= b
    ensures Bounded(w.tree, key, b) && |w.locks| + 2 <= NO_NEIGHBOUR
  {
    GoodTree(w) by { hide *; }
    MetaAbove(w) by { hide *; }
    BTrees.BoundTop(w.tree, key) by { hide *; }
    hide Good, Sound, Represents, TreeSteps.Sized, TreeSteps.Distance, TreeSteps.Bound;
    Scale(b, d + 1);
  }

  /** A pass leaves fewer splits to do. */
  lemma Fewer(w: World, w': World, key: Bytes, b: int, d: nat, h: int, c: Pid, at: Pid, ordered: bool) returns (d': nat)
    requires Good(w) && Good(w') && Enough(w, key, b, d, h) && BTrees.Advances(w.tree, w'.tree, key, c, at, b, ordered)
    requires |w'.locks| <= |w.locks| + 2 && META in w.tree.level && 0 <= w.tree.level[META] <= b
    ensures d' < d && Enough(w', key, b, d', h - w.tree.level[META])
  {
    GoodTree(w) by { hide *; }
    GoodTree(w') by { hide *; }
    BTrees.AdvanceMeans(w.tree, w'.tree, key, c, at, b, ordered) by { hide *; }
    TreeSteps.DistanceNotNegative(w'.tree, key, b) by { hide *; }
    hide Good, Sound, Represents, TreeSteps.Sized, TreeSteps.Distance, TreeSteps.Bound, BTrees.Advances;
    d' := TreeSteps.Distance(w'.tree, key, b);
    Spend(b, d, d', w.tree.level[META], h);
  }

  lemma CalmLockable(w: World, h: int, c: Pid)
    requires Calm(w, {}, h) && c in w.locks && h >= 1
    ensures Lockable(w, c)
  {
    hide StateOf, VersionOf;
  }

  lemma PutMayChange(w: World, c: Pid, op: Op)
    requires c in w.tree.pages && |w.tree.pages[c].keys| == |w.tree.pages[c].pays| && op.goal.Put? && op.key !in w.m
    requires HasSpaceFor(w.tree.pages[c], |op.key|, |op.goal.v|)
    ensures MayChange(w, c, op)
  {
    hide HasSpaceFor;
  }

  lemma LiveLocked(w: World, c: Pid, key: Bytes)
    requires Good(w) && Live(w.tree, c, key)
    ensures c in w.locks && c in w.tree.level && c in w.tree.pages
  {
    LevelLocked(w) by { hide *; }
    hide Good, Within;
  }

  lemma LeafAims(w: World, op: Op, c: Pid)
    requires TreeSteps.OnPath(w.tree, c, op.key) && w.tree.level[c] == 0 && c != META && op.goal.Put?
    requires |w.tree.pages[c].keys| == |w.tree.pages[c].pays| && !HasSpaceFor(w.tree.pages[c], |op.key|, |op.goal.v|)
    ensures Aims(w, op, Anew(op), c)
  {
    NoSpace(w.tree.pages[c], |op.key|, |op.goal.v|) by { hide *; }
    hide HasSpaceFor, Capacity, Within;
  }

  lemma ThereRead(w: World, t: Tid, op: Op, past: set<Option<Bytes>>, trip: Trip, p: Pid, k: Walk, h: int)
    requires ThereNow(w, t, op, past, trip, p, k, h)
    ensures HasRead(w, t, op, past, k) && k.trip == trip && k.cur.pid == p && Calm(w, {}, h) && w.open == {}
    ensures t in w.threads
  {
    hide HasRead, Good, Calm;
  }

  /** Pass after pass, until the leaf has room; then the key is put there. */
  lemma {:induction false} InsertRuns(w: World, t: Tid, op: Op, past: set<Option<Bytes>>, h: int, b: int, d: nat,
                                      ordered: bool) returns (w': World, n: nat, past': set<Option<Bytes>>)
    requires Poised(w, t, op, past, Anew(op), h) && TameKeys(w.m.Keys) && Enough(w, op.key, b, d, h)
    ensures Can(w, w', t, n) && Good(w') && Free(w') && w'.open == {} && OthersRest(w, w', t)
    ensures t in w'.threads && w'.threads[t] == Busy(op, past', Finished(Lookup(w.m, op.key)))
    ensures Effect(w, w', op, Lookup(w.m, op.key))
    decreases d
  {
    hide *;
    PoisedTold(w, t, op, past, Anew(op), h);
    Afford(w, op.key, b, d, h);
    var c := LeafFor(w, op.key);
    LiveLocked(w, c, op.key);
    if HasSpaceFor(w.tree.pages[c], |op.key|, |op.goal.v|) {
      AnewRoute(op);
      var u, n1, k := ComeTo(w, t, op, past, Anew(op), c, h);
      StaysTold(w, u);
      RunsKept(w, u, t, n1);
      ThereRead(u, t, op, past, Anew(op), c, k, h);
      CalmLockable(u, h, c);
      PutMayChange(u, c, op);
      var n2: nat;
      w', n2, past' := ChangeAndReturn(u, t, op, past, k);
      n := n1 + n2;
      CanThen(w, u, w', t, n1, n2);
      RestTwice(w, u, w', t);
      SameEffect(u, w', w, w', op, Lookup(w.m, op.key));
    } else {
      LeafAims(w, op, c);
      var u, n1, past1, at := Pass(w, t, op, past, Anew(op), c, h, b, ordered);
      RunsKept(w, u, t, n1);
      var d1 := Fewer(w, u, op.key, b, d, h, c, at, ordered);
      var n2: nat;
      w', n2, past' := InsertRuns(u, t, op, past1, h - w.tree.level[META], b, d1, ordered);
      n := n1 + n2;
      CanThen(w, u, w', t, n1, n2);
      RestTwice(w, u, w', t);
      SameEffect(u, w', w, w', op, Lookup(w.m, op.key));
    }
  }

  lemma AnewRoute(op: Op)
    ensures Anew(op).route == op.key && Anew(op).target.None?
  {
  }

  lemma CalledPoised(w: World, t: Tid, op: Op, h: int)
    requires AtRest(w) && Calm(w, {}, h) && t in w.threads && w.threads[t].Idle? && Legal(op)
    requires op.goal.Put? && op.key !in w.m
    ensures Poised(Called(w, t, op), t, op, {Lookup(w.m, op.key)}, Anew(op), h)
    ensures Called(w, t, op).tree == w.tree && Called(w, t, op).locks == w.locks && Called(w, t, op).m == w.m
  {
    RestGood(w) by { hide *; }
    RestOpen(w) by { hide *; }
    CallGoes(w, t, op) by { hide *; }
    hide AtRest, Legal, Good, StateOf, VersionOf, Lookup, OnlyMoved, Next, Spoils;
  }

  lemma SameEnough(w: World, w': World, key: Bytes, b: int, d: nat, h: int)
    requires Enough(w, key, b, d, h) && w'.tree == w.tree && w'.locks == w.locks
    ensures Enough(w', key, b, d, h)
  {
    hide Bounded, TreeSteps.Distance;
  }

  /** Versions and page ids last for all splits that the insert may need. */
  ghost predicate Lasts(w: World, key: Bytes, h: int) {
    Sound(w.tree)
    && var b, d := TreeSteps.Bound(w.tree, key), TreeSteps.Distance(w.tree, key, TreeSteps.Bound(w.tree, key));
       h >= (d + 1) * b + 1 && |w.locks| + 2 * (d + 1) <= NO_NEIGHBOUR
  }

  lemma LastsEnough(w: World, key: Bytes, h: int) returns (b: int, d: nat)
    requires Lasts(w, key, h)
    ensures Enough(w, key, b, d, h)
  {
    b := TreeSteps.Bound(w.tree, key);
    TreeSteps.DistanceNotNegative(w.tree, key, b) by { hide *; }
    hide Sound, TreeSteps.Bound, TreeSteps.Distance;
    d := TreeSteps.Distance(w.tree, key, b);
  }

  /** From every world at rest whose pages nobody holds, every insert of a new key has a run of its own that ends with the
      key in the map, however many pages have to be split for it on the way. It is asked that the keys are tame, so that
      no split overflows, and that versions and page ids last. */
  lemma InsertAlone(w: World, t: Tid, op: Op, h: int, ordered: bool)
    returns (ws: seq<World>, ts: seq<Tid>, es: seq<Event>)
    requires AtRest(w) && t in w.threads && w.threads[t].Idle? && Legal(op) && op.goal.Put? && op.key !in w.m
    requires TameKeys(w.m.Keys) && Calm(w, {}, h) && Lasts(w, op.key, h)
    ensures Served(ws, ts, es, t, op, None) && ws[0] == w && ws[|ts|].m == w.m[op.key := op.goal.v]
  {
    hide *;
    CalledPoised(w, t, op, h);
    CalledRest(w, t, op);
    var b, d := LastsEnough(w, op.key, h);
    var u, past := Called(w, t, op), {Lookup(w.m, op.key)};
    SameEnough(w, u, op.key, b, d, h);
    var v, n, past' := InsertRuns(u, t, op, past, h, b, d, ordered);
    RestTwice(w, u, v, t);
    AbsentSays(w.m, op.key);
    ws, ts, es := Wrap(w, v, t, op, past', Lookup(w.m, op.key), n);
    RetiredSame(v, t);
    PutEffect(u, v, op, Lookup(w.m, op.key));
  }

  lemma PutEffect(w: World, w': World, op: Op, answer: Option<Bytes>)
    requires Effect(w, w', op, answer) && op.goal.Put?
    ensures w'.m == w.m[op.key := op.goal.v]
  {
  }

  // ----- what else the holder of a pair may do -----

  /** It may write anything to the pages it holds, but for those it is done with, and reads of them are torn. */
  lemma MayWritePair(w: World, t: Tid, op: Op, past: set<Option<Bytes>>, k: Pair, p: Pid, n: Node) returns (w': World)
    requires Good(w) && t in w.threads && w.threads[t] == Busy(op, past, OnPair(k)) && p in PairPages(k)
        && p !in k.extra
    ensures Next(w, w', t, Write(p, n)) && Good(w') && w'.mem == w.mem[p := n] && w'.tree == w.tree && w'.m == w.m
    ensures forall u | u in w.threads && u != t && ReadsNow(w.threads[u], p) :: u in w'.threads && Torn(w'.threads[u])
  {
    hide *;
    PairFacts(w, t, op, past, k);
    OwnedInMem(w, t, p);
    var th := Busy(op, past, OnPair(k.(wrote := true)));
    w' := w.(mem := w.mem[p := n], open := w.open + {p}, threads := TouchAll(w.threads, {p}, w.m)[t := th]);
    PairWrites(w, w', t, op, past, k, p, n);
    PairGoes(w, w', t, op, past, k, Write(p, n));
    StepCan(w, w', t, Write(p, n));
    TornBy(w, w', t, p, th);
    GoesNext(w, w', t, Write(p, n));
  }

  lemma GoesNext(w: World, w': World, t: Tid, e: Event)
    requires Goes(w, w', t, e)
    ensures Next(w, w', t, e)
  {
    hide Next, Spoils;
  }

  lemma OwnedInMem(w: World, t: Tid, p: Pid)
    requires Good(w) && Owns(w, t, p)
    ensures p in w.mem
  {
    hide TreeOk, LocksOk, OpenOk, ThreadsOk;
  }

  lemma PairWrites(w: World, w': World, t: Tid, op: Op, past: set<Option<Bytes>>, k: Pair, p: Pid, n: Node)
    requires t in w.threads && p in PairPages(k) && p !in k.extra && p in w.mem
    requires w' == w.(mem := w.mem[p := n], open := w.open + {p},
                      threads := TouchAll(w.threads, {p}, w.m)[t := Busy(op, past, OnPair(k.(wrote := true)))])
    ensures PairStep(w, w', t, op, past, k, Write(p, n))
  {
    hide TouchAll, PairPages;
  }

  /** It may release the metadata page before the split of the old root. */
  lemma MayRelease(w: World, t: Tid, op: Op, past: set<Option<Bytes>>, k: Pair, p: Pid)
    requires Good(w) && t in w.threads && w.threads[t] == Busy(op, past, OnPair(k)) && !k.wrote && p in k.extra
    requires p in w.locks && VersionOf(w.locks[p].word) + 1 < TOP
    ensures Enabled(Action.UnlockX, t, w.locks[p])
    ensures var th := Busy(op, past, OnPair(k.(extra := k.extra - {p})));
      Next(w, w.(threads := w.threads[t := th], locks := w.locks[p := Apply(Action.UnlockX, t, w.locks[p])]), t,
           Event.Unlock(p))
  {
    PairFacts(w, t, op, past, k) by { hide *; }
    ExtraHeld(k, p) by { hide *; }
    OwnerReleases(w, t, p) by { hide Good, VersionOf, StateOf; }
    hide Good, Enabled, Apply, VersionOf, PairOk, Reason, TripOk, Legal, Lookup, Within, Owns, PairPages;
  }

  lemma ExtraHeld(k: Pair, p: Pid)
    requires p in k.extra
    ensures p in PairPages(k)
  {
  }

  lemma OwnerReleases(w: World, t: Tid, p: Pid)
    requires Good(w) && Owns(w, t, p)
    ensures Enabled(Action.UnlockX, t, w.locks[p])
  {
    hide Good, StateOf, VersionOf;
  }

  /** When somebody has changed the child in between, the holder of the parent backs off. */
  lemma MayBackOff(w: World, t: Tid, op: Op, past: set<Option<Bytes>>, k: Top)
    requires t in w.threads && w.threads[t] == Busy(op, past, OnParent(k)) && k.cur.pid in w.locks
    requires VersionOf(w.locks[k.cur.pid].word) != VersionOf(k.cur.word)
    ensures Next(w, w.(threads := w.threads[t := Busy(op, past, Unwinding(Back({k.p}, k.trip, None)))]), t, LockChild)
  {
    VersionsDiffer(w.locks[k.cur.pid].word, k.cur.word);
    hide ShiftLeft, VersionOf, Enabled, Apply, CanUpgrade;
  }

  lemma VersionsDiffer(a: Word, b: Word)
    requires VersionOf(a) != VersionOf(b)
    ensures ShiftLeft(a, 256) != ShiftLeft(b, 256)
  {
  }
}
