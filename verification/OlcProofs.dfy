/** What every reachable world of Olc satisfies. `Good` says that the tree is sound and stands for the map,
    that locks fit their holders, that pages nobody is writing hold what the tree says, and that every
    thread's guards, if they are still valid, know what the code relies on: where the search for the key
    leads, what a leaf answers, which pages are held. Each kind of step has a lemma that keeps `Good`; they
    come together in `NextGood`. */
module OlcProofs {
  import opened Keys
  import opened Nodes
  import opened PageLocks
  import opened Trees
  import opened Olc
  import opened Reads
  import opened Spaces
  import TreeSteps

  // ----- the invariant -----

  ghost predicate Sane(w: World, g: Guard) {
    g.pid in w.locks && StateOf(g.word) <= MAX_SHARED && 2 * VersionOf(g.word) <= Epoch(w.locks[g.pid])
  }

  /** Nobody has held the page exclusively since the guard was made. */
  ghost predicate Valid(w: World, g: Guard) {
    g.pid in w.locks && Epoch(w.locks[g.pid]) == 2 * VersionOf(g.word)
  }

  ghost predicate Live(t: Tree, p: Pid, k: Bytes) {
    p in t.level && p in t.pages && Within(k, t.pages[p].lo, t.pages[p].hi)
  }

  /** The search for `k` leads from `p`, at slot `pos`, to `c`. */
  ghost predicate Hangs(t: Tree, p: Pid, k: Bytes, pos: nat, c: Pid) {
    Live(t, p, k) && t.level[p] > 0 && Inner(t.pages[p]) && Slot(t.pages[p], k) == pos && Kid(t.pages[p], pos) == c
  }

  /** A decision taken on page `p` is the one its content calls for. */
  ghost predicate Tells(t: Tree, p: Pid, k: Bytes, d: Decision) {
    p in t.level && p in t.pages && WellFormed(t.pages[p]) ==> d == Decide(t.pages[p], k)
  }

  ghost predicate LeafFacts(t: Tree, c: Pid, k: Bytes, slot: nat, answer: Option<Bytes>, room: int) {
    Live(t, c, k) && t.level[c] == 0 && Tells(t, c, k, Here(slot, answer, room))
  }

  /** The page has an entry behind `pos`. */
  predicate More(t: Tree, p: Pid, pos: nat) {
    p in t.pages && pos + 1 < |t.pages[p].keys|
  }

  /** The guard of the parent is still valid, or was checked after the child's guard was made. */
  ghost predicate Trusted(w: World, parent: Option<Guard>) {
    parent.None? || Valid(w, parent.value)
  }

  ghost predicate Owns(w: World, t: Tid, p: Pid) {
    p in w.locks && w.locks[p].x == Some(t)
  }

  ghost predicate TripOk(op: Op, trip: Trip) {
    if trip.target.None? then trip.route == op.key else op.goal.Put? && |trip.route| <= SHORT
  }

  ghost predicate WalkOk(w: World, past: set<Option<Bytes>>, k: Walk) {
    && Sane(w, k.cur)
    && (k.parent.Some? ==>
        Sane(w, k.parent.value)
        && (Valid(w, k.parent.value) ==> Hangs(w.tree, k.parent.value.pid, k.trip.route, k.pos, k.cur.pid))
        && (Valid(w, k.parent.value) && k.more.Some? ==> k.more.value == More(w.tree, k.parent.value.pid, k.pos)))
    && (k.parent.None? && Valid(w, k.cur) ==> Live(w.tree, k.cur.pid, k.trip.route))
    && (k.look.Reading? && k.look.torn ==> !Valid(w, k.cur))
    && (k.look.Seen? && Valid(w, k.cur) ==> Tells(w.tree, k.cur.pid, k.trip.route, k.look.d))
    && (k.checked ==>
        k.look.Seen?
        && (k.look.d.Down? ==> k.look.d.child in w.locks)
        && (k.look.d.Here? && k.trip.target.None? && Trusted(w, k.parent) ==> k.look.d.answer in past))
  }

  ghost predicate LeafOk(w: World, op: Op, k: Leaf) {
    && (k.parent.Some? ==> Sane(w, k.parent.value) && !k.wrote)
    && (Trusted(w, k.parent) ==> LeafFacts(w.tree, k.c, op.key, k.slot, k.answer, k.room))
    && (if op.goal.Put? then Need(op, Anew(op)) <= k.room else k.answer.Some?)
  }

  ghost predicate TopOk(w: World, k: Top) {
    && Sane(w, k.cur) && Hangs(w.tree, k.p, k.trip.route, k.pos, k.cur.pid)
    && (k.look.Seen? && Valid(w, k.cur) ==> Tells(w.tree, k.cur.pid, k.trip.route, k.look.d))
    && (k.more ==> More(w.tree, k.p, k.pos))
  }

  /** Why a parent is locked: the page has no room for what an insert needs, or a removal found its key in a leaf
      that has a right sibling. */
  ghost predicate Reason(op: Op, trip: Trip, d: Decision, more: bool) {
    if op.goal.Put? then Need(op, trip) > d.room && !more
    else op.goal.Del? && trip.target.None? && d.Here? && d.answer.Some? && more
  }

  ghost predicate PairOk(w: World, k: Pair) {
    && Hangs(w.tree, k.p, k.trip.route, k.pos, k.c)
    && (!k.gone ==> Tells(w.tree, k.c, k.trip.route, k.decision))
    && (k.more ==> More(w.tree, k.p, k.pos))
    && (k.right.Some? ==>
        k.pos + 1 < |w.tree.pages[k.p].keys| && k.right.value == Kid(w.tree.pages[k.p], k.pos + 1)
        && k.spare.None? && k.trip.target.None? && k.decision.Here? && k.decision.answer.Some?)
    && (k.spare.Some? ==> k.spare.value !in w.tree.level && k.spare.value != NO_NEIGHBOUR && !k.more)
    && (k.gone ==> k.right.Some? && w.tree.level[k.p] == 1)
    && k.extra !! ({k.p, k.c} + Opt(k.right) + Opt(k.spare))
  }

  ghost predicate StageOk(w: World, op: Op, past: set<Option<Bytes>>, at: Stage) {
    match at
    case Starting(trip) => TripOk(op, trip)
    case Walking(k) => TripOk(op, k.trip) && WalkOk(w, past, k)
    case OnLeaf(k) => LeafOk(w, op, k)
    case OnParent(k) => TripOk(op, k.trip) && TopOk(w, k) && k.look.Seen? && Reason(op, k.trip, k.look.d, k.more)
    case OnPair(k) => TripOk(op, k.trip) && PairOk(w, k) && Reason(op, k.trip, k.decision, k.more)
    case Unwinding(k) => TripOk(op, k.trip)
    case Finished(_) => true
  }

  ghost predicate ThreadOk(w: World, t: Tid, th: Thread) {
    && (forall p | p in Held(th) :: Owns(w, t, p))
    && (th.Busy? ==> Legal(th.op) && Lookup(w.m, th.op.key) in th.past && StageOk(w, th.op, th.past, th.at))
  }

  ghost predicate OpenFits(w: World, p: Pid) {
    && p in w.locks && w.locks[p].x.Some?
    && var u := w.locks[p].x.value;
       u in w.threads && Wrote(w.threads[u]) && p in Held(w.threads[u])
  }

  ghost predicate OpenOk(w: World) {
    forall p | p in w.open :: OpenFits(w, p)
  }

  ghost predicate MemOk(w: World) {
    && w.locks.Keys == w.mem.Keys == w.tree.pages.Keys
    && forall p | p in w.mem && p !in w.open :: w.mem[p] == w.tree.pages[p]
  }

  ghost predicate LocksOk(w: World) {
    forall p | p in w.locks :: PageLocks.Inv(w.locks[p])
  }

  ghost predicate TreeOk(w: World) {
    Sound(w.tree) && Represents(w.tree, w.m) && TreeSteps.Sized(w.tree) && !w.crashed
  }

  ghost predicate ThreadsOk(w: World) {
    forall t | t in w.threads :: ThreadOk(w, t, w.threads[t])
  }

  ghost predicate Good(w: World) {
    TreeOk(w) && LocksOk(w) && MemOk(w) && OpenOk(w) && ThreadsOk(w)
  }

  // ----- what one thread's step leaves alone for the others -----

  ghost predicate SamePage(a: Tree, b: Tree, p: Pid) {
    && (p in a.pages <==> p in b.pages)
    && (p in a.pages && p in b.pages ==> a.pages[p] == b.pages[p])
    && (p in a.level <==> p in b.level)
    && (p in a.level && p in b.level ==> a.level[p] == b.level[p])
  }

  /** From `w` to `w'` thread `t` only changes pages it holds, and locks as the protocol allows. */
  ghost predicate Quiet(w: World, w': World, t: Tid) {
    && w.locks.Keys <= w'.locks.Keys
    && (forall p | p in w.locks && p in w'.locks :: Epoch(w.locks[p]) <= Epoch(w'.locks[p]))
    && (forall p | p in w.locks && p in w'.locks && w.locks[p].x.Some? && w.locks[p].x != Some(t) ::
        w'.locks[p] == w.locks[p])
    && (forall p | p in w.locks && w.locks[p].x != Some(t) :: SamePage(w.tree, w'.tree, p))
  }

  lemma SaneKept(w: World, w': World, t: Tid, g: Guard)
    requires Quiet(w, w', t) && Sane(w, g)
    ensures Sane(w', g)
  {
    hide StateOf, VersionOf, Epoch, SamePage;
  }

  /** A page whose guard is valid now was valid, and the same, before the step. */
  lemma StillSame(w: World, w': World, t: Tid, g: Guard)
    requires Quiet(w, w', t) && LocksOk(w) && Sane(w, g) && Valid(w', g)
    ensures Valid(w, g) && SamePage(w.tree, w'.tree, g.pid)
  {
    hide StateOf, VersionOf, SamePage;
    assert Epoch(w.locks[g.pid]) <= Epoch(w'.locks[g.pid]);
  }

  lemma SameMeansSame(a: Tree, b: Tree, p: Pid, k: Bytes, pos: nat, c: Pid, d: Decision)
    requires SamePage(a, b, p)
    ensures Live(a, p, k) ==> Live(b, p, k)
    ensures Hangs(a, p, k, pos, c) ==> Hangs(b, p, k, pos, c)
    ensures Tells(a, p, k, d) ==> Tells(b, p, k, d)
    ensures More(a, p, pos) == More(b, p, pos)
  {
    hide WellFormed, Within, Slot, Kid, Decide;
  }

  lemma OtherWalk(w: World, w': World, t: Tid, past: set<Option<Bytes>>, past': set<Option<Bytes>>, k: Walk, k': Walk)
    requires Quiet(w, w', t) && LocksOk(w) && WalkOk(w, past, k) && past <= past'
    requires k' == k || (k.look.Reading? && k' == k.(look := Reading(true)) && !Valid(w', k.cur))
    ensures WalkOk(w', past', k')
  {
    hide Sane, Valid, Live, Hangs, Tells, Quiet, LocksOk, SamePage, More;
    SaneKept(w, w', t, k.cur);
    LocksGrow(w, w', t);
    var d := if k.look.Seen? then k.look.d else Down(0, 0, 0);
    if Valid(w', k.cur) {
      StillSame(w, w', t, k.cur);
      SameMeansSame(w.tree, w'.tree, k.cur.pid, k.trip.route, k.pos, k.cur.pid, d);
    }
    if k.parent.Some? {
      SaneKept(w, w', t, k.parent.value);
      if Valid(w', k.parent.value) {
        StillSame(w, w', t, k.parent.value);
        SameMeansSame(w.tree, w'.tree, k.parent.value.pid, k.trip.route, k.pos, k.cur.pid, d);
      }
    }
  }

  lemma LocksGrow(w: World, w': World, t: Tid)
    requires Quiet(w, w', t)
    ensures w.locks.Keys <= w'.locks.Keys
  {
  }

  /** A page held by somebody else than `t` stays as it is, and stays held. */
  lemma HeldSame(w: World, w': World, t: Tid, u: Tid, p: Pid)
    requires Quiet(w, w', t) && Owns(w, u, p) && u != t
    ensures Owns(w', u, p) && SamePage(w.tree, w'.tree, p)
  {
    hide Epoch, SamePage;
    assert p in w'.locks;
  }

  lemma OtherStage(w: World, w': World, t: Tid, u: Tid, th: Thread, past': set<Option<Bytes>>)
    requires Quiet(w, w', t) && LocksOk(w) && ThreadOk(w, u, th) && u != t && th.Busy? && !th.at.Walking?
    requires th.past <= past'
    ensures StageOk(w', th.op, past', th.at)
  {
    hide Sane, Valid, Live, Hangs, Tells, Quiet, LocksOk, SamePage, Owns, More, Legal, Reason;
    match th.at {
      case OnLeaf(k) =>
        assert k.c in Held(th);
        HeldSame(w, w', t, u, k.c);
        if k.parent.Some? {
          SaneKept(w, w', t, k.parent.value);
          if Valid(w', k.parent.value) { StillSame(w, w', t, k.parent.value); }
        }
        LeafSame(w.tree, w'.tree, k.c, th.op.key, k.slot, k.answer, k.room);
      case OnParent(k) =>
        assert k.p in Held(th);
        HeldSame(w, w', t, u, k.p);
        SaneKept(w, w', t, k.cur);
        var d := k.look.d;
        SameMeansSame(w.tree, w'.tree, k.p, k.trip.route, k.pos, k.cur.pid, d);
        if Valid(w', k.cur) {
          StillSame(w, w', t, k.cur);
          SameMeansSame(w.tree, w'.tree, k.cur.pid, k.trip.route, k.pos, k.cur.pid, d);
        }
      case OnPair(k) =>
        OtherPair(w, w', t, u, th, k);
      case _ =>
    }
  }

  lemma LeafSame(a: Tree, b: Tree, c: Pid, key: Bytes, slot: nat, answer: Option<Bytes>, room: int)
    requires SamePage(a, b, c)
    ensures LeafFacts(a, c, key, slot, answer, room) ==> LeafFacts(b, c, key, slot, answer, room)
  {
    hide WellFormed, Within, Decide;
  }

  lemma OtherPair(w: World, w': World, t: Tid, u: Tid, th: Thread, k: Pair)
    requires Quiet(w, w', t) && ThreadOk(w, u, th) && u != t && th.Busy? && th.at == OnPair(k)
    ensures PairOk(w', k)
  {
    hide Tells, Quiet, Owns, WellFormed, Within, Slot, Kid, Decide, Held, More, Legal;
    PairHolds(w, u, th, k);
    HeldSame(w, w', t, u, k.p);
    HeldSame(w, w', t, u, k.c);
    var d := k.decision;
    SameMeansSame(w.tree, w'.tree, k.p, k.trip.route, k.pos, k.c, d);
    SameMeansSame(w.tree, w'.tree, k.c, k.trip.route, k.pos, k.c, d);
    if k.spare.Some? { HeldSame(w, w', t, u, k.spare.value); }
  }

  lemma PairHolds(w: World, u: Tid, th: Thread, k: Pair)
    requires ThreadOk(w, u, th) && th.Busy? && th.at == OnPair(k)
    ensures Owns(w, u, k.p) && Owns(w, u, k.c)
    ensures k.right.Some? ==> Owns(w, u, k.right.value)
    ensures k.spare.Some? ==> Owns(w, u, k.spare.value)
    ensures forall p | p in k.extra :: Owns(w, u, p)
  {
    hide Owns, StageOk;
    assert k.p in Held(th) && k.c in Held(th);
    assert k.right.Some? ==> k.right.value in Held(th);
    assert k.spare.Some? ==> k.spare.value in Held(th);
    assert k.extra <= Held(th);
  }

  lemma TouchedStage(w: World, w': World, t: Tid, u: Tid, th: Thread, th': Thread, written: set<Pid>)
    requires Quiet(w, w', t) && LocksOk(w) && ThreadOk(w, u, th) && u != t && th.Busy?
    requires th' == Touch(th, written, w'.m) || (th' == th && w'.m == w.m)
    requires forall p | p in written :: p in w'.locks && w'.locks[p].x.Some?
    ensures StageOk(w', th'.op, th'.past, th'.at)
  {
    hide Quiet, Owns, WalkOk, LeafOk, TopOk, PairOk, TripOk, Lookup, Valid, Legal, Reason;
    if th.at.Walking? {
      var k := th.at.walk;
      if k.cur.pid in written { LockedNotValid(w', k.cur); }
      OtherWalk(w, w', t, th.past, th'.past, k, th'.at.walk);
    } else {
      OtherStage(w, w', t, u, th, th'.past);
    }
  }

  /** The other threads stay as they should be. `written` are the pages whose content may have changed. */
  lemma Others(w: World, w': World, t: Tid, u: Tid, th: Thread, th': Thread, written: set<Pid>)
    requires Quiet(w, w', t) && LocksOk(w) && ThreadOk(w, u, th) && u != t
    requires th' == Touch(th, written, w'.m) || (th' == th && w'.m == w.m)
    requires forall p | p in written :: p in w'.locks && w'.locks[p].x.Some?
    ensures ThreadOk(w', u, th')
  {
    hide Quiet, Owns, StageOk, Lookup, LocksOk, Legal;
    assert Held(th') == Held(th);
    forall p | p in Held(th') ensures Owns(w', u, p) { HeldSame(w, w', t, u, p); }
    if th.Busy? { TouchedStage(w, w', t, u, th, th', written); }
  }

  lemma LockedNotValid(w: World, g: Guard)
    requires g.pid in w.locks && w.locks[g.pid].x.Some?
    ensures !Valid(w, g)
  {
    hide VersionOf;
  }

  // ----- steps that change at most one lock -----

  lemma Assemble(w: World, w': World, t: Tid, written: set<Pid>)
    requires Good(w) && Quiet(w, w', t)
    requires TreeOk(w') && LocksOk(w') && MemOk(w') && OpenOk(w')
    requires w'.threads.Keys == w.threads.Keys && t in w.threads
    requires ThreadOk(w', t, w'.threads[t])
    requires forall u | u in w.threads && u != t ::
      w'.threads[u] == Touch(w.threads[u], written, w'.m) || (w'.threads[u] == w.threads[u] && w'.m == w.m)
    requires forall p | p in written :: p in w'.locks && w'.locks[p].x.Some?
    ensures Good(w')
  {
    hide Quiet, TreeOk, LocksOk, MemOk, OpenOk, ThreadOk, Touch;
    forall u | u in w'.threads ensures ThreadOk(w', u, w'.threads[u]) {
      if u != t { Others(w, w', t, u, w.threads[u], w'.threads[u], written); }
    }
  }

  /** The lock of a page that `t` may change: not held by somebody else, and never losing epochs. */
  ghost predicate FairLock(t: Tid, l: Lock, l': Lock) {
    PageLocks.Inv(l') && Epoch(l) <= Epoch(l') && (l.x.Some? && l.x != Some(t) ==> l' == l)
  }

  lemma LockQuiet(w: World, w': World, t: Tid, th: Thread, p: Pid, l: Lock)
    requires p in w.locks && MovesLock(w, w', t, th, p, l) && FairLock(t, w.locks[p], l)
    ensures Quiet(w, w', t)
  {
    hide Epoch;
  }

  /** With the tree unchanged, a stage that fits the old locks fits the new ones. */
  lemma StageKept(w: World, w': World, t: Tid, op: Op, past: set<Option<Bytes>>, at: Stage)
    requires Quiet(w, w', t) && LocksOk(w) && w'.tree == w.tree && StageOk(w, op, past, at)
    ensures StageOk(w', op, past, at)
  {
    hide Live, Hangs, Tells, Quiet, LocksOk, Sane, Valid, LeafFacts, TripOk, More, Reason;
    match at {
      case Walking(k) => OtherWalk(w, w', t, past, past, k, k);
      case OnLeaf(k) =>
        if k.parent.Some? {
          SaneKept(w, w', t, k.parent.value);
          if Valid(w', k.parent.value) { StillSame(w, w', t, k.parent.value); }
        }
      case OnParent(k) =>
        SaneKept(w, w', t, k.cur);
        if Valid(w', k.cur) { StillSame(w, w', t, k.cur); }
      case _ =>
    }
  }

  lemma MoveLockGood(w: World, w': World, t: Tid, op: Op, past: set<Option<Bytes>>, at: Stage, at': Stage, p: Pid,
                     l: Lock)
    requires Good(w) && t in w.threads && w.threads[t] == Busy(op, past, at) && !Wrote(w.threads[t])
    requires p in w.locks && MovesLock(w, w', t, Busy(op, past, at'), p, l) && FairLock(t, w.locks[p], l)
    requires StageOk(w, op, past, at')
    requires forall q | q in Held(Busy(op, past, at')) :: if q == p then l.x == Some(t) else Owns(w, t, q)
    ensures Good(w')
  {
    hide TreeOk, StageOk, LocksOk, MemOk, OpenOk, ThreadsOk, ThreadOk, FairLock, Wrote, Held, Quiet;
    LockQuiet(w, w', t, Busy(op, past, at'), p, l);
    StageKept(w, w', t, op, past, at');
    LockLocks(w, w', t, Busy(op, past, at'), p, l);
    LockOpen(w, w', t, Busy(op, past, at'), p, l);
    LockOwn(w, w', t, op, past, at, at', p, l);
    TreeKept(w, w');
    Assemble(w, w', t, {});
  }

  lemma LockLocks(w: World, w': World, t: Tid, th: Thread, p: Pid, l: Lock)
    requires LocksOk(w) && p in w.locks && MovesLock(w, w', t, th, p, l) && FairLock(t, w.locks[p], l)
    ensures LocksOk(w')
  {
    hide PageLocks.Inv, Epoch;
  }

  lemma LockOwn(w: World, w': World, t: Tid, op: Op, past: set<Option<Bytes>>, at: Stage, at': Stage, p: Pid, l: Lock)
    requires Good(w) && t in w.threads && w.threads[t] == Busy(op, past, at)
    requires p in w.locks && MovesLock(w, w', t, Busy(op, past, at'), p, l) && StageOk(w', op, past, at')
    requires forall q | q in Held(Busy(op, past, at')) :: if q == p then l.x == Some(t) else Owns(w, t, q)
    ensures ThreadOk(w', t, w'.threads[t])
  {
    hide Good, StageOk, Held, Lookup;
    StateOfBusy(w, t, op, past, at);
  }

  lemma TreeKept(w: World, w': World)
    requires TreeOk(w) && w'.tree == w.tree && w'.m == w.m && w'.crashed == w.crashed
    ensures TreeOk(w')
  {
  }

  lemma LockOpen(w: World, w': World, t: Tid, th: Thread, p: Pid, l: Lock)
    requires Good(w) && t in w.threads && !Wrote(w.threads[t])
    requires p in w.locks && MovesLock(w, w', t, th, p, l) && FairLock(t, w.locks[p], l)
    ensures OpenOk(w') && MemOk(w')
  {
    hide TreeOk, LocksOk, ThreadsOk, Wrote, Held, Epoch, PageLocks.Inv;
    forall q | q in w'.open ensures OpenFits(w', q) {
      assert OpenFits(w, q);
    }
  }

  lemma MoveGood(w: World, w': World, t: Tid, op: Op, past: set<Option<Bytes>>, at: Stage, at': Stage)
    requires Good(w) && t in w.threads && w.threads[t] == Busy(op, past, at) && !Wrote(w.threads[t])
    requires Moves(w, w', t, Busy(op, past, at'))
    requires StageOk(w, op, past, at')
    requires forall q | q in Held(Busy(op, past, at')) :: Owns(w, t, q)
    ensures Good(w')
  {
    MoveAnyGood(w, w', t, Busy(op, past, at')) by {
      hide TreeOk, StageOk, Lookup;
      assert ThreadOk(w, t, w.threads[t]);
    }
  }

  lemma MoveAnyGood(w: World, w': World, t: Tid, th: Thread)
    requires Good(w) && t in w.threads && !Wrote(w.threads[t])
    requires Moves(w, w', t, th) && ThreadOk(w, t, th)
    ensures Good(w')
  {
    hide TreeOk, StageOk, Lookup, Wrote, Held, WalkOk;
    forall q | q in w'.open ensures OpenFits(w', q) {
      assert OpenFits(w, q);
    }
    TreeKept(w, w');
    StageMoved(w, w', t, th);
    MoveQuiet(w, w', t, th);
    Assemble(w, w', t, {});
  }

  lemma MoveQuiet(w: World, w': World, t: Tid, th: Thread)
    requires Moves(w, w', t, th)
    ensures Quiet(w, w', t)
  {
    hide Epoch;
  }

  lemma StageMoved(w: World, w': World, t: Tid, th: Thread)
    requires Moves(w, w', t, th) && ThreadOk(w, t, th) && LocksOk(w)
    ensures ThreadOk(w', t, th)
  {
    hide StageOk, LocksOk, Quiet;
    MoveQuiet(w, w', t, th);
    if th.Busy? { StageKept(w, w', t, th.op, th.past, th.at); }
  }

  // ----- what a check, a fresh guard and an upgrade tell -----

  lemma GuardedFair(t: Tid, l: Lock)
    requires PageLocks.Inv(l) && CanGuard(l)
    ensures FairLock(t, l, Guarded(l)) && Guarded(l).x == l.x == None
    ensures Epoch(Guarded(l)) == Epoch(l) == 2 * VersionOf(Guarded(l).word)
    ensures StateOf(Guarded(l).word) <= MAX_SHARED
  {
    SameVersionUnpacks(l.word, UNLOCKED);
    hide StateOf, VersionOf, SameVersion;
  }

  lemma CheckTells(w: World, g: Guard)
    requires Good(w) && Sane(w, g) && CheckPasses(g.word, w.locks[g.pid].word)
    ensures Valid(w, g) && CanGuard(w.locks[g.pid])
  {
    CheckMeaning(g.word, w.locks[g.pid].word);
    assert PageLocks.Inv(w.locks[g.pid]);
    hide StateOf, VersionOf, CheckPasses;
  }

  lemma UpgradeTells(w: World, g: Guard, t: Tid)
    requires Good(w) && Sane(w, g) && CanUpgrade(g, w.locks[g.pid])
    ensures Valid(w, g) && Enabled(LockX, t, w.locks[g.pid])
  {
    assert PageLocks.Inv(w.locks[g.pid]);
    assert VersionOf(w.locks[g.pid].word) == VersionOf(g.word);
    hide StateOf, VersionOf;
  }

  lemma TakeFair(t: Tid, l: Lock)
    requires PageLocks.Inv(l) && Enabled(LockX, t, l)
    ensures FairLock(t, l, Apply(LockX, t, l)) && Apply(LockX, t, l).x == Some(t)
  {
    StepInv(LockX, t, l, Apply(LockX, t, l));
    hide StateOf, VersionOf, SameVersion;
  }

  lemma StepFair(a: Action, t: Tid, l: Lock)
    requires PageLocks.Inv(l) && Enabled(a, t, l) && (Releases(a) ==> VersionOf(l.word) + 1 < TOP)
    ensures FairLock(t, l, Apply(a, t, l))
  {
    StepInv(a, t, l, Apply(a, t, l));
    if l.x.Some? { OnlyHolderSteps(a, t, l); }
    hide StateOf, VersionOf, SameVersion, NextVersion;
  }

  // ----- the steps, one by one -----

  lemma AgentGood(w: World, w': World, t: Tid, p: Pid, a: Action)
    requires Good(w) && t in w.threads && w.threads[t].Agent? && p in w.locks && Enabled(a, t, w.locks[p])
    requires Releases(a) ==> VersionOf(w.locks[p].word) + 1 < TOP
    requires MovesLock(w, w', t, Agent, p, Apply(a, t, w.locks[p]))
    ensures Good(w')
  {
    hide TreeOk, LocksOk, MemOk, OpenOk, ThreadsOk, ThreadOk, Apply, StateOf, VersionOf, Wrote, Held, FairLock, Quiet;
    LockInv(w, p);
    StepFair(a, t, w.locks[p]);
    hide PageLocks.Inv;
    LockQuiet(w, w', t, Agent, p, Apply(a, t, w.locks[p]));
    LockLocks(w, w', t, Agent, p, Apply(a, t, w.locks[p]));
    AgentIdle(w, t);
    LockOpen(w, w', t, Agent, p, Apply(a, t, w.locks[p]));
    TreeKept(w, w');
    AgentOk(w', t);
    Assemble(w, w', t, {});
  }

  lemma AgentIdle(w: World, t: Tid)
    requires t in w.threads && w.threads[t].Agent?
    ensures !Wrote(w.threads[t])
  {
  }

  lemma AgentOk(w: World, t: Tid)
    ensures ThreadOk(w, t, Agent)
  {
  }

  lemma StateOfBusy(w: World, t: Tid, op: Op, past: set<Option<Bytes>>, at: Stage)
    requires Good(w) && t in w.threads && w.threads[t] == Busy(op, past, at)
    ensures Legal(op) && StageOk(w, op, past, at) && Lookup(w.m, op.key) in past
    ensures forall q | q in Held(Busy(op, past, at)) :: Owns(w, t, q)
  {
    hide TreeOk, StageOk, Owns, Held, Lookup, Legal;
    assert ThreadOk(w, t, w.threads[t]);
  }

  lemma EnterGood(w: World, w': World, t: Tid, op: Op, past: set<Option<Bytes>>, trip: Trip)
    requires Good(w) && t in w.threads && w.threads[t] == Busy(op, past, Starting(trip))
    requires META in w.locks && CanGuard(w.locks[META])
    requires var l := Guarded(w.locks[META]);
      MovesLock(w, w', t, Busy(op, past, Walking(Walk(trip, None, 0, Guard(META, l.word), Blank, false, None))), META,
          l)
    ensures Good(w')
  {
    hide Good, Live, Hangs, Tells, StateOf, VersionOf, SameVersion, Guarded, CanGuard, FairLock, PageLocks.Inv,
         Lookup, Epoch;
    var l := Guarded(w.locks[META]);
    var k := Walk(trip, None, 0, Guard(META, l.word), Blank, false, None);
    StateOfBusy(w, t, op, past, Starting(trip));
    LockInv(w, META);
    GuardedFair(t, w.locks[META]);
    MetaLive(w, trip.route);
    assert WalkOk(w, past, k);
    MoveLockGood(w, w', t, op, past, Starting(trip), Walking(k), META, l);
  }

  lemma MetaLive(w: World, k: Bytes)
    requires Good(w)
    ensures Live(w.tree, META, k)
  {
  }

  lemma CheckGood(w: World, w': World, t: Tid, op: Op, past: set<Option<Bytes>>, at: Stage, g: Guard, yes: Stage,
                  no: Stage)
    requires Good(w) && t in w.threads && w.threads[t] == Busy(op, past, at) && !Wrote(w.threads[t])
    requires Sane(w, g)
    requires Checks(w, w', t, g, Busy(op, past, yes), Busy(op, past, no))
    requires StageOk(w, op, past, no) && forall q | q in Held(Busy(op, past, no)) :: Owns(w, t, q)
    requires Valid(w, g) ==> StageOk(w, op, past, yes)
    requires forall q | q in Held(Busy(op, past, yes)) :: Owns(w, t, q) && q != g.pid
    ensures Good(w')
  {
    hide Good, StageOk, Wrote, Held, CheckPasses, FairLock, CanGuard, Guarded, PageLocks.Inv, Epoch, StateOf, VersionOf;
    if CheckPasses(g.word, w.locks[g.pid].word) {
      CheckTells(w, g);
      LockInv(w, g.pid);
      GuardedFair(t, w.locks[g.pid]);
      MoveLockGood(w, w', t, op, past, at, yes, g.pid, Guarded(w.locks[g.pid]));
    } else {
      MoveGood(w, w', t, op, past, at, no);
    }
  }

  /** The pages of the tree that a valid guard shows are well formed. */
  lemma TellsWhat(w: World, g: Guard, k: Bytes, d: Decision)
    requires Good(w) && Live(w.tree, g.pid, k) && Tells(w.tree, g.pid, k, d)
    ensures WellFormed(w.tree.pages[g.pid]) && d == Decide(w.tree.pages[g.pid], k)
    ensures d.Down? ==> Hangs(w.tree, g.pid, k, d.pos, d.child) && d.child in w.tree.level
    ensures d.Here? ==> LeafFacts(w.tree, g.pid, k, d.slot, d.answer, d.room) && d.answer == Lookup(w.m, k)
  {
    hide Within, Slot, Kid, Get, Lookup, WellFormed, Tiled, Apart, Chained;
    if d.Down? { RouteFits(w.tree, g.pid, k); } else { assert IsLeaf(w.tree, g.pid); }
  }

  lemma ParentShowsChild(w: World, k: Walk)
    requires Good(w) && k.parent.Some? && Valid(w, k.parent.value)
    requires Hangs(w.tree, k.parent.value.pid, k.trip.route, k.pos, k.cur.pid)
    ensures Live(w.tree, k.cur.pid, k.trip.route)
  {
    RouteFits(w.tree, k.parent.value.pid, k.trip.route);
  }

  lemma CheckCurGood(w: World, w': World, t: Tid, op: Op, past: set<Option<Bytes>>, k: Walk)
    requires Good(w) && t in w.threads && w.threads[t] == Busy(op, past, Walking(k))
    requires WalkStep(w, w', t, op, past, k, CheckCur)
    ensures Good(w')
  {
    hide Good, Live, Hangs, Tells, Valid, Sane, StateOf, VersionOf, SameVersion, Guarded, CanGuard, FairLock,
         Epoch, PageLocks.Inv, Lookup, Checks;
    StateOfBusy(w, t, op, past, Walking(k));
    if Valid(w, k.cur) && Trusted(w, k.parent) {
      if k.parent.Some? { ParentShowsChild(w, k); }
      TellsWhat(w, k.cur, k.trip.route, k.look.d);
    }
    LevelLocked(w);
    assert Valid(w, k.cur) ==> WalkOk(w, past, k.(checked := true));
    CheckGood(w, w', t, op, past, Walking(k), k.cur, Walking(k.(checked := true)), Starting(k.trip));
  }

  lemma CheckParentGood(w: World, w': World, t: Tid, op: Op, past: set<Option<Bytes>>, k: Walk)
    requires Good(w) && t in w.threads && w.threads[t] == Busy(op, past, Walking(k))
    requires WalkStep(w, w', t, op, past, k, CheckParent)
    ensures Good(w')
  {
    hide Good, Live, Hangs, Tells, Valid, Sane, StateOf, VersionOf, SameVersion, Guarded, CanGuard, FairLock,
         Epoch, PageLocks.Inv, Lookup, Checks;
    StateOfBusy(w, t, op, past, Walking(k));
    if Valid(w, k.parent.value) { ParentShowsChild(w, k); }
    assert Valid(w, k.parent.value) ==> WalkOk(w, past, k.(parent := None));
    CheckGood(w, w', t, op, past, Walking(k), k.parent.value, Walking(k.(parent := None)), Starting(k.trip));
  }

  lemma FollowGood(w: World, w': World, t: Tid, op: Op, past: set<Option<Bytes>>, k: Walk)
    requires Good(w) && t in w.threads && w.threads[t] == Busy(op, past, Walking(k))
    requires WalkStep(w, w', t, op, past, k, Follow)
    ensures Good(w')
  {
    hide Good, Live, Hangs, Tells, StateOf, VersionOf, SameVersion, Guarded, CanGuard, FairLock, PageLocks.Inv,
         Lookup, Epoch, Decide, WellFormed, LeafFacts;
    StateOfBusy(w, t, op, past, Walking(k));
    var c := k.look.d.child;
    var l := Guarded(w.locks[c]);
    var k' := Walk(k.trip, Some(k.cur), k.look.d.pos, Guard(c, l.word), Blank, false, None);
    if Valid(w, k.cur) { TellsWhat(w, k.cur, k.trip.route, k.look.d); }
    LockInv(w, c);
    GuardedFair(t, w.locks[c]);
    assert WalkOk(w, past, k');
    MoveLockGood(w, w', t, op, past, Walking(k), Walking(k'), c, l);
  }

  lemma ReadGood(w: World, w': World, t: Tid, op: Op, past: set<Option<Bytes>>, k: Walk, e: Event)
    requires Good(w) && t in w.threads && w.threads[t] == Busy(op, past, Walking(k))
    requires e.BeginRead? || e.EndRead? || e.ReadParent? || e.Return? || e.Restart?
    requires WalkStep(w, w', t, op, past, k, e)
    ensures Good(w')
  {
    hide Good, Live, Hangs, Valid, Sane, StateOf, VersionOf, Epoch, PageLocks.Inv, Lookup, Decide, WellFormed,
         Searchable, More, Legal;
    StateOfBusy(w, t, op, past, Walking(k));
    if e.EndRead? && Valid(w, k.cur) { ReadTells(w, k.cur, k.trip.route); }
    if e.ReadParent? && Valid(w, k.parent.value) { ReadMore(w, k); }
    var at := if e.BeginRead? then Walking(k.(look := Reading(false)))
      else if e.EndRead? then Walking(k.(look := Seen(e.d)))
      else if e.ReadParent? then Walking(k.(more := Some(e.more)))
      else if e.Return? then Finished(k.look.d.answer)
      else if Moves(w, w', t, Busy(op, past, Starting(k.trip))) then Starting(k.trip)
      else Starting(Anew(op));
    assert StageOk(w, op, past, at);
    MoveGood(w, w', t, op, past, Walking(k), at);
  }

  /** Nobody is writing to a page with a valid guard, and if it belongs to the tree, any key can be searched for in it. */
  lemma ReadTells(w: World, g: Guard, k: Bytes)
    requires Good(w) && Sane(w, g) && Valid(w, g)
    ensures g.pid in w.mem && g.pid in w.tree.pages && w.mem[g.pid] == w.tree.pages[g.pid]
    ensures g.pid in w.tree.level ==> Searchable(w.tree.pages[g.pid], k)
  {
    hide LocksOk, MemOk, OpenOk, ThreadsOk, Sound, Represents, Sane, Valid, Small, Fits, Searchable;
    UnlockedSame(w, g);
    if g.pid in w.tree.level {
      assert TreeSteps.SizedPage(w.tree, g.pid);
      ShortNodeSearchable(w.tree.pages[g.pid], k);
    }
  }

  lemma ReadMore(w: World, k: Walk)
    requires Good(w) && k.parent.Some? && Sane(w, k.parent.value) && Valid(w, k.parent.value)
    requires Hangs(w.tree, k.parent.value.pid, k.trip.route, k.pos, k.cur.pid)
    ensures var p := k.parent.value.pid;
      p in w.mem && p !in w.open && WellFormed(w.mem[p]) && (k.pos + 1 < |w.mem[p].keys| <==> More(w.tree, p, k.pos))
  {
    hide Good, Sane, Valid, Slot, Kid;
    UnlockedSame(w, k.parent.value);
  }

  lemma LockInv(w: World, p: Pid)
    requires Good(w) && p in w.locks
    ensures PageLocks.Inv(w.locks[p])
  {
    hide TreeOk, MemOk, OpenOk, ThreadsOk, PageLocks.Inv;
  }

  lemma LevelLocked(w: World)
    requires Good(w)
    ensures w.tree.level.Keys <= w.locks.Keys
  {
    hide LocksOk, OpenOk, ThreadsOk, WellFormed;
  }

  lemma OpenHeld(w: World, p: Pid)
    requires Good(w) && p in w.open
    ensures p in w.locks && w.locks[p].x.Some?
  {
    hide TreeOk, MemOk, LocksOk, ThreadsOk, Wrote, Held;
    assert OpenFits(w, p);
  }

  lemma UnlockedSame(w: World, g: Guard)
    requires Good(w) && Sane(w, g) && Valid(w, g)
    ensures g.pid in w.mem && g.pid in w.tree.pages && w.mem[g.pid] == w.tree.pages[g.pid] && g.pid !in w.open
  {
    hide VersionOf, StateOf, TreeOk, ThreadsOk, Wrote, Held;
    if g.pid in w.open { OpenHeld(w, g.pid); }
  }

  lemma LockLeafGood(w: World, w': World, t: Tid, op: Op, past: set<Option<Bytes>>, k: Walk)
    requires Good(w) && t in w.threads && w.threads[t] == Busy(op, past, Walking(k))
    requires WalkStep(w, w', t, op, past, k, LockLeaf)
    ensures Good(w')
  {
    hide Good, Live, Hangs, Tells, Valid, Sane, StateOf, VersionOf, SameVersion, Guarded, CanGuard, FairLock,
         Epoch, PageLocks.Inv, Lookup, Apply, Enabled, CanUpgrade, LeafFacts, Decide;
    StateOfBusy(w, t, op, past, Walking(k));
    UpgradeTells(w, k.cur, t);
    var leaf := Leaf(k.parent, k.cur.pid, k.look.d.slot, k.look.d.answer, k.look.d.room, false);
    if Trusted(w, k.parent) {
      if k.parent.Some? { ParentShowsChild(w, k); }
      TellsWhat(w, k.cur, k.trip.route, k.look.d);
    }
    assert LeafOk(w, op, leaf);
    LockInv(w, k.cur.pid);
    TakeFair(t, w.locks[k.cur.pid]);
    MoveLockGood(w, w', t, op, past, Walking(k), OnLeaf(leaf), k.cur.pid, Apply(LockX, t, w.locks[k.cur.pid]));
  }

  lemma LockParentGood(w: World, w': World, t: Tid, op: Op, past: set<Option<Bytes>>, k: Walk)
    requires Good(w) && t in w.threads && w.threads[t] == Busy(op, past, Walking(k))
    requires WalkStep(w, w', t, op, past, k, LockParent)
    ensures Good(w')
  {
    hide Good, Live, Hangs, Tells, Valid, Sane, StateOf, VersionOf, SameVersion, Guarded, CanGuard, FairLock,
         Epoch, PageLocks.Inv, Lookup, Apply, Enabled, CanUpgrade, Decide;
    StateOfBusy(w, t, op, past, Walking(k));
    var p := k.parent.value.pid;
    UpgradeTells(w, k.parent.value, t);
    var top := Top(k.trip, p, k.pos, k.cur, k.look, op.goal.Del?);
    assert TopOk(w, top);
    LockInv(w, p);
    TakeFair(t, w.locks[p]);
    MoveLockGood(w, w', t, op, past, Walking(k), OnParent(top), p, Apply(LockX, t, w.locks[p]));
  }

  lemma WalkGood(w: World, w': World, t: Tid, op: Op, past: set<Option<Bytes>>, k: Walk, e: Event)
    requires Good(w) && t in w.threads && w.threads[t] == Busy(op, past, Walking(k))
    requires WalkStep(w, w', t, op, past, k, e)
    ensures Good(w')
  {
    hide Good, MovesLock, Moves, Checks, TakesX;
    match e {
      case CheckCur => CheckCurGood(w, w', t, op, past, k);
      case CheckParent => CheckParentGood(w, w', t, op, past, k);
      case Follow => FollowGood(w, w', t, op, past, k);
      case LockLeaf => LockLeafGood(w, w', t, op, past, k);
      case LockParent => LockParentGood(w, w', t, op, past, k);
      case _ => ReadGood(w, w', t, op, past, k, e);
    }
  }

  lemma LeafCheckGood(w: World, w': World, t: Tid, op: Op, past: set<Option<Bytes>>, k: Leaf)
    requires Good(w) && t in w.threads && w.threads[t] == Busy(op, past, OnLeaf(k))
    requires LeafStep(w, w', t, op, past, k, CheckParentHeld)
    ensures Good(w')
  {
    hide Good, Live, Tells, Valid, Sane, StateOf, VersionOf, Epoch, PageLocks.Inv, Lookup, Checks, LeafFacts;
    StateOfBusy(w, t, op, past, OnLeaf(k));
    var g := k.parent.value;
    assert k.c in Held(Busy(op, past, OnLeaf(k)));
    if Valid(w, g) { ValidNotOwned(w, g, t, k.c); }
    CheckLeafGood(w, w', t, op, past, k);
  }

  lemma ValidNotOwned(w: World, g: Guard, t: Tid, p: Pid)
    requires Valid(w, g) && Owns(w, t, p)
    ensures g.pid != p
  {
    hide VersionOf;
  }

  lemma CheckLeafGood(w: World, w': World, t: Tid, op: Op, past: set<Option<Bytes>>, k: Leaf)
    requires Good(w) && t in w.threads && w.threads[t] == Busy(op, past, OnLeaf(k)) && k.parent.Some?
    requires LeafOk(w, op, k) && Owns(w, t, k.c)
    requires Valid(w, k.parent.value) ==> k.parent.value.pid != k.c
    requires Checks(w, w', t, k.parent.value, Busy(op, past, OnLeaf(k.(parent := None))),
                Busy(op, past, Unwinding(Back({k.c}, Anew(op), None))))
    ensures Good(w')
  {
    hide Good, Live, Tells, Valid, StateOf, VersionOf, Epoch, PageLocks.Inv, Lookup, LeafFacts, CheckPasses,
         FairLock, CanGuard, Guarded;
    var g := k.parent.value;
    var no := Unwinding(Back({k.c}, Anew(op), None));
    if CheckPasses(g.word, w.locks[g.pid].word) {
      CheckTells(w, g);
      LockInv(w, g.pid);
      GuardedFair(t, w.locks[g.pid]);
      MoveLockGood(w, w', t, op, past, OnLeaf(k), OnLeaf(k.(parent := None)), g.pid, Guarded(w.locks[g.pid]));
    } else {
      MoveGood(w, w', t, op, past, OnLeaf(k), no);
    }
  }

  lemma TopGood(w: World, w': World, t: Tid, op: Op, past: set<Option<Bytes>>, k: Top, e: Event)
    requires Good(w) && t in w.threads && w.threads[t] == Busy(op, past, OnParent(k))
    requires TopStep(w, w', t, op, past, k, e)
    ensures Good(w')
  {
    hide Good, Live, Hangs, Tells, Valid, Sane, StateOf, VersionOf, SameVersion, FairLock, Epoch, PageLocks.Inv,
         Lookup, Apply, Enabled, CanUpgrade, Decide, ShiftLeft;
    StateOfBusy(w, t, op, past, OnParent(k));
    assert k.p in Held(Busy(op, past, OnParent(k)));
    if e.LockChild? && ShiftLeft(w.locks[k.cur.pid].word, 256) != ShiftLeft(k.cur.word, 256) {
      MoveGood(w, w', t, op, past, OnParent(k), Unwinding(Back({k.p}, k.trip, None)));
    } else {
      UpgradeTells(w, k.cur, t);
      LockInv(w, k.cur.pid);
      TakeFair(t, w.locks[k.cur.pid]);
      var pair := Pair(k.trip, k.p, k.pos, k.cur.pid, k.look.d, k.more, None, None, {}, false, false);
      MoveLockGood(w, w', t, op, past, OnParent(k), OnPair(pair), k.cur.pid, Apply(LockX, t, w.locks[k.cur.pid]));
    }
  }

  lemma PairFacts(w: World, t: Tid, op: Op, past: set<Option<Bytes>>, k: Pair)
    requires Good(w) && t in w.threads && w.threads[t] == Busy(op, past, OnPair(k))
    ensures Legal(op) && Reason(op, k.trip, k.decision, k.more)
    ensures TripOk(op, k.trip) && PairOk(w, k) && forall p | p in PairPages(k) :: Owns(w, t, p)
    ensures k.c in w.tree.level && w.tree.level[k.c] + 1 == w.tree.level[k.p] && k.c != k.p && k.p in w.tree.pages
    ensures Within(k.trip.route, w.tree.pages[k.c].lo, w.tree.pages[k.c].hi)
    ensures Lookup(w.m, op.key) in past
  {
    hide LocksOk, MemOk, OpenOk, Lookup, Within;
    StateOfBusy(w, t, op, past, OnPair(k));
    RouteFits(w.tree, k.p, k.trip.route);
  }

  /** While `t` has not begun to write, the pages it holds are as the tree says. */
  lemma HeldClean(w: World, t: Tid, p: Pid)
    requires Good(w) && t in w.threads && !Wrote(w.threads[t]) && Owns(w, t, p)
    ensures p in w.mem && p in w.tree.pages && w.mem[p] == w.tree.pages[p]
  {
    hide TreeOk, LocksOk, ThreadsOk, Wrote, Held;
    if p in w.open { OpenByWriter(w, p); }
  }

  lemma OpenByWriter(w: World, p: Pid)
    requires Good(w) && p in w.open
    ensures OpenFits(w, p)
  {
    hide TreeOk, MemOk, LocksOk, ThreadsOk, Wrote, Held;
  }

  lemma LockRightGood(w: World, w': World, t: Tid, op: Op, past: set<Option<Bytes>>, k: Pair)
    requires Good(w) && t in w.threads && w.threads[t] == Busy(op, past, OnPair(k))
    requires PairStep(w, w', t, op, past, k, LockRight)
    ensures Good(w')
  {
    hide Good, Live, Hangs, Tells, FairLock, Epoch, PageLocks.Inv, Lookup, Apply, Enabled, WellFormed, Kid, Within,
         StateOf, VersionOf;
    PairFacts(w, t, op, past, k);
    HeldClean(w, t, k.p);
    RightApart(w, k);
    var r := Kid(w.mem[k.p], k.pos + 1);
    LockInv(w, r);
    TakeFair(t, w.locks[r]);
    TakenFree(w, t, r, k);
    MoveLockGood(w, w', t, op, past, OnPair(k), OnPair(k.(right := Some(r))), r, Apply(LockX, t, w.locks[r]));
  }

  lemma TakenFree(w: World, t: Tid, r: Pid, k: Pair)
    requires Good(w) && r in w.locks && Enabled(LockX, t, w.locks[r]) && forall p | p in PairPages(k) :: Owns(w, t, p)
    ensures r !in PairPages(k)
  {
    hide TreeOk, MemOk, OpenOk, ThreadsOk, PairPages;
    LockInv(w, r);
  }

  lemma RightApart(w: World, k: Pair)
    requires Good(w) && PairOk(w, k) && k.pos + 1 < |w.tree.pages[k.p].keys|
    ensures Inner(w.tree.pages[k.p]) && Kid(w.tree.pages[k.p], k.pos + 1) in w.tree.level
  {
    hide LocksOk, MemOk, OpenOk, ThreadsOk, Within, Tells;
    KidFact(w.tree, k.p, k.pos + 1);
  }

  lemma GiveUpGood(w: World, w': World, t: Tid, op: Op, past: set<Option<Bytes>>, k: Pair, ordered: bool)
    requires Good(w) && t in w.threads && w.threads[t] == Busy(op, past, OnPair(k))
    requires PairStep(w, w', t, op, past, k, GiveUp(ordered))
    ensures Good(w')
  {
    hide Good, PairOk, Lookup, WellFormed, Separator, FindSeparator, HasSpaceFor, Reason, Legal;
    PairFacts(w, t, op, past, k);
    HeldClean(w, t, k.c);
    HeldClean(w, t, k.p);
    NotGone(w, t, op, past, k);
    FullCuttable(w, t, op, past, k);
    ShortSep(w, k.c, ordered);
    MoveGood(w, w', t, op, past, OnPair(k), Unwinding(Back(PairPages(k),
        Trip(Separator(w.mem[k.c], ordered), Some(k.p)), None)));
  }

  lemma NotGone(w: World, t: Tid, op: Op, past: set<Option<Bytes>>, k: Pair)
    requires Good(w) && t in w.threads && w.threads[t] == Busy(op, past, OnPair(k)) && k.right.None?
    ensures !k.gone
  {
    hide Good, Hangs, Tells, Kid, Owns, Within, Legal, TripOk, More, Reason;
    PairFacts(w, t, op, past, k);
  }

  lemma PairMoveGood(w: World, w': World, t: Tid, op: Op, past: set<Option<Bytes>>, k: Pair, e: Event)
    requires Good(w) && t in w.threads && w.threads[t] == Busy(op, past, OnPair(k))
    requires e.Leave? || e.Unlock?
    requires PairStep(w, w', t, op, past, k, e)
    ensures Good(w')
  {
    hide Good, Hangs, Tells, FairLock, Epoch, PageLocks.Inv, Lookup, Apply, Enabled, Kid, StateOf, VersionOf;
    PairFacts(w, t, op, past, k);
    if e.Leave? {
      MoveGood(w, w', t, op, past, OnPair(k), Unwinding(Back(PairPages(k), Anew(op), Some(k.decision.answer))));
    } else {
      LockInv(w, e.p);
      StepFair(UnlockX, t, w.locks[e.p]);
      MoveLockGood(w, w', t, op, past, OnPair(k), OnPair(k.(extra := k.extra - {e.p})), e.p,
          Apply(UnlockX, t, w.locks[e.p]));
    }
  }

  lemma ShortSep(w: World, c: Pid, ordered: bool)
    requires Good(w) && c in w.tree.level && c in w.tree.pages && Cuttable(w.tree.pages[c])
    ensures |Separator(w.tree.pages[c], ordered)| <= SHORT
  {
    hide LocksOk, MemOk, OpenOk, ThreadsOk, Sound, Represents, FindSeparator, WellFormed;
    assert TreeSteps.SizedPage(w.tree, c);
    SepInRange(w.tree.pages[c], ordered);
  }

  lemma BackGood(w: World, w': World, t: Tid, op: Op, past: set<Option<Bytes>>, k: Back, e: Event)
    requires Good(w) && t in w.threads && w.threads[t] == Busy(op, past, Unwinding(k))
    requires BackStep(w, w', t, op, past, k, e)
    ensures Good(w')
  {
    hide Good, FairLock, Epoch, PageLocks.Inv, Lookup, Apply, Enabled, StateOf, VersionOf;
    StateOfBusy(w, t, op, past, Unwinding(k));
    if e.Unlock? {
      LockInv(w, e.p);
      StepFair(UnlockX, t, w.locks[e.p]);
      MoveLockGood(w, w', t, op, past, Unwinding(k), Unwinding(k.(held := k.held - {e.p})), e.p,
          Apply(UnlockX, t, w.locks[e.p]));
    } else {
      MoveGood(w, w', t, op, past, Unwinding(k), if k.result.Some? then Finished(k.result.value) else Starting(k.trip));
    }
  }

  lemma CallGood(w: World, w': World, t: Tid, op: Op)
    requires Good(w) && t in w.threads && w.threads[t].Idle?
    requires Legal(op) && Moves(w, w', t, Busy(op, {Lookup(w.m, op.key)}, Starting(Anew(op))))
    ensures Good(w')
  {
    hide Good, Lookup, Legal;
    MoveAnyGood(w, w', t, Busy(op, {Lookup(w.m, op.key)}, Starting(Anew(op))));
  }

  lemma RetireGood(w: World, w': World, t: Tid, op: Op, past: set<Option<Bytes>>, answer: Option<Bytes>)
    requires Good(w) && t in w.threads && w.threads[t] == Busy(op, past, Finished(answer))
    requires Moves(w, w', t, Idle)
    ensures Good(w')
  {
    hide Good;
    MoveAnyGood(w, w', t, Idle);
  }

  // ----- writing inside a held page -----

  lemma WriteGood(w: World, w': World, t: Tid, op: Op, past: set<Option<Bytes>>, at: Stage, at': Stage, p: Pid, n: Node)
    requires Good(w) && t in w.threads && w.threads[t] == Busy(op, past, at) && Owns(w, t, p)
    requires Writes(w, w', t, Busy(op, past, at'), p, n)
    requires Wrote(Busy(op, past, at')) && Held(Busy(op, past, at')) == Held(w.threads[t]) && p in Held(w.threads[t])
    requires StageOk(w, op, past, at')
    ensures Good(w')
  {
    hide TreeOk, StageOk, Lookup, Wrote, Held, Touch, LocksOk, OpenOk, MemOk, ThreadsOk, Quiet, ThreadOk;
    WriteOpen(w, w', t, op, past, at, at', p, n);
    TreeKept(w, w');
    WriteQuiet(w, w', t, Busy(op, past, at'), p, n);
    WriteLocks(w, w', t, Busy(op, past, at'), p, n);
    StageKept(w, w', t, op, past, at');
    WriteOwn(w, w', t, op, past, at, at', p, n);
    Assemble(w, w', t, {p});
  }

  lemma WriteOpen(w: World, w': World, t: Tid, op: Op, past: set<Option<Bytes>>, at: Stage, at': Stage, p: Pid, n: Node)
    requires Good(w) && t in w.threads && w.threads[t] == Busy(op, past, at) && Owns(w, t, p)
    requires Writes(w, w', t, Busy(op, past, at'), p, n)
    requires Wrote(Busy(op, past, at')) && Held(Busy(op, past, at')) == Held(w.threads[t]) && p in Held(w.threads[t])
    ensures OpenOk(w') && MemOk(w')
  {
    hide TreeOk, Lookup, Wrote, Held, Touch, LocksOk, ThreadsOk;
    forall q | q in w'.open ensures OpenFits(w', q) {
      if q != p {
        OpenByWriter(w, q);
        TouchHolds(w.threads[w.locks[q].x.value], {p}, w.m);
      }
    }
  }

  lemma WriteLocks(w: World, w': World, t: Tid, th: Thread, p: Pid, n: Node)
    requires LocksOk(w) && Writes(w, w', t, th, p, n)
    ensures LocksOk(w')
  {
  }

  lemma WriteQuiet(w: World, w': World, t: Tid, th: Thread, p: Pid, n: Node)
    requires Writes(w, w', t, th, p, n)
    ensures Quiet(w, w', t)
  {
    hide Epoch, Touch;
  }

  lemma WriteOwn(w: World, w': World, t: Tid, op: Op, past: set<Option<Bytes>>, at: Stage, at': Stage, p: Pid, n: Node)
    requires Good(w) && t in w.threads && w.threads[t] == Busy(op, past, at)
    requires Writes(w, w', t, Busy(op, past, at'), p, n)
    requires Held(Busy(op, past, at')) == Held(w.threads[t])
    requires StageOk(w', op, past, at')
    ensures ThreadOk(w', t, w'.threads[t])
  {
    hide Good, StageOk, Held, Lookup, Touch;
    StateOfBusy(w, t, op, past, at);
    assert w'.threads[t] == Busy(op, past, at');
  }

  lemma TouchHolds(th: Thread, written: set<Pid>, m: map<Bytes, Bytes>)
    ensures Held(Touch(th, written, m)) == Held(th) && Wrote(Touch(th, written, m)) == Wrote(th)
  {
  }

  lemma LeafWriteGood(w: World, w': World, t: Tid, op: Op, past: set<Option<Bytes>>, k: Leaf, n: Node)
    requires Good(w) && t in w.threads && w.threads[t] == Busy(op, past, OnLeaf(k))
    requires LeafStep(w, w', t, op, past, k, Write(k.c, n))
    ensures Good(w')
  {
    hide Good, LeafFacts, Writes;
    StateOfBusy(w, t, op, past, OnLeaf(k));
    assert k.c in Held(Busy(op, past, OnLeaf(k)));
    WriteGood(w, w', t, op, past, OnLeaf(k), OnLeaf(k.(wrote := true)), k.c, n);
  }

  lemma PairWriteGood(w: World, w': World, t: Tid, op: Op, past: set<Option<Bytes>>, k: Pair, p: Pid, n: Node)
    requires Good(w) && t in w.threads && w.threads[t] == Busy(op, past, OnPair(k))
    requires PairStep(w, w', t, op, past, k, Write(p, n))
    ensures Good(w')
  {
    hide Good, Writes, Hangs, Tells, Kid;
    PairFacts(w, t, op, past, k);
    WriteGood(w, w', t, op, past, OnPair(k), OnPair(k.(wrote := true)), p, n);
  }

  lemma AllocGood(w: World, w': World, t: Tid, op: Op, past: set<Option<Bytes>>, k: Pair, r: Pid, n: Node)
    requires Good(w) && t in w.threads && w.threads[t] == Busy(op, past, OnPair(k))
    requires PairStep(w, w', t, op, past, k, Alloc(r, n))
    ensures Good(w')
  {
    hide TreeOk, LocksOk, OpenOk, ThreadsOk, PairOk, TripOk, Lookup, Apply, Owns;
    var k' := k.(spare := Some(r), wrote := true);
    PairFacts(w, t, op, past, k);
    AllocQuiet(w, w', t, op, past, k, r, n);
    AllocTree(w, w', r, n);
    AllocOpen(w, w', t, op, past, k, r, n);
    AllocPair(w, w', t, op, past, k, r, n);
    hide MemOk;
    Assemble(w, w', t, {});
  }

  lemma AllocQuiet(w: World, w': World, t: Tid, op: Op, past: set<Option<Bytes>>, k: Pair, r: Pid, n: Node)
    requires Good(w) && t in w.threads && w.threads[t] == Busy(op, past, OnPair(k))
    requires PairStep(w, w', t, op, past, k, Alloc(r, n))
    ensures Quiet(w, w', t) && LocksOk(w')
    ensures Apply(LockX, t, Fresh()).x == Some(t)
  {
    hide TreeOk, OpenOk, ThreadsOk, StateOf, VersionOf, SameVersion;
    SameVersionUnpacks(0, EVICTED);
    TakeFair(t, Fresh());
  }

  lemma AllocTree(w: World, w': World, r: Pid, n: Node)
    requires Good(w) && r !in w.locks
    requires w'.tree == w.tree.(pages := w.tree.pages[r := n]) && w'.m == w.m && w'.crashed == w.crashed
    ensures TreeOk(w') && r !in w.tree.level
  {
    hide LocksOk, OpenOk, ThreadsOk, WellFormed, Tiled, Apart, Chained, Represents, Small, Fits;
    SpareSound(w.tree, w.m, r, n);
    assert forall p | p in w.tree.level :: TreeSteps.SizedPage(w.tree, p);
  }

  lemma AllocOpen(w: World, w': World, t: Tid, op: Op, past: set<Option<Bytes>>, k: Pair, r: Pid, n: Node)
    requires Good(w) && t in w.threads && w.threads[t] == Busy(op, past, OnPair(k))
    requires PairStep(w, w', t, op, past, k, Alloc(r, n))
    requires Apply(LockX, t, Fresh()).x == Some(t)
    ensures OpenOk(w') && MemOk(w')
  {
    hide TreeOk, LocksOk, ThreadsOk, Apply, Held, Wrote;
    AllocHeld(op, past, k, r);
    forall q | q in w'.open ensures OpenFits(w', q) {
      if q != r { OpenByWriter(w, q); }
    }
  }

  lemma AllocHeld(op: Op, past: set<Option<Bytes>>, k: Pair, r: Pid)
    ensures var th := Busy(op, past, OnPair(k.(spare := Some(r), wrote := true)));
      Wrote(th) && r in Held(th) && (k.spare.None? ==> Held(th) == Held(Busy(op, past, OnPair(k))) + {r})
  {
  }

  lemma AllocPair(w: World, w': World, t: Tid, op: Op, past: set<Option<Bytes>>, k: Pair, r: Pid, n: Node)
    requires Good(w) && t in w.threads && w.threads[t] == Busy(op, past, OnPair(k))
    requires PairStep(w, w', t, op, past, k, Alloc(r, n))
    requires Apply(LockX, t, Fresh()).x == Some(t) && r !in w.tree.level
    ensures ThreadOk(w', t, w'.threads[t])
  {
    hide TreeOk, LocksOk, OpenOk, ThreadsOk, Apply, WellFormed, Within, Slot, Kid, Decide, Lookup;
    PairFacts(w, t, op, past, k);
    assert r !in PairPages(k);
  }

  // ----- finished changes -----

  lemma CommitGood(w: World, w': World, t: Tid, op: Op, past: set<Option<Bytes>>, at: Stage, at': Stage,
                   tree: Tree, m: map<Bytes, Bytes>)
    requires Good(w) && t in w.threads && w.threads[t] == Busy(op, past, at)
    requires Commits(w, w', t, at', tree, m)
    requires Sound(tree) && Represents(tree, m) && TreeSteps.Sized(tree) && tree.pages.Keys == w.tree.pages.Keys
    requires forall p | p in w.locks && p !in Held(w.threads[t]) :: SamePage(w.tree, tree, p)
    requires Held(Busy(op, past, at')) <= Held(w.threads[t])
    requires StageOk(w', op, past + {Lookup(m, op.key)}, at')
    ensures Good(w')
  {
    hide Sound, Represents, TreeSteps.Sized, LocksOk, MemOk, OpenOk, ThreadsOk, SamePage, StageOk, Lookup, Held,
         Touch, TouchAll, Wrote, Legal;
    CommitQuiet(w, w', t, op, past, at, at', tree, m);
    CommitMem(w, w', t, op, past, at, at', tree, m);
    CommitOwn(w, w', t, op, past, at, at', tree, m);
    CommitOthers(w, w', t, op, past, at, at', tree, m);
    hide Commits;
    Assemble(w, w', t, Held(w.threads[t]));
  }

  lemma CommitQuiet(w: World, w': World, t: Tid, op: Op, past: set<Option<Bytes>>, at: Stage, at': Stage,
                    tree: Tree, m: map<Bytes, Bytes>)
    requires Good(w) && t in w.threads && w.threads[t] == Busy(op, past, at)
    requires Commits(w, w', t, at', tree, m)
    requires forall p | p in w.locks && p !in Held(w.threads[t]) :: SamePage(w.tree, tree, p)
    ensures Quiet(w, w', t) && LocksOk(w')
    ensures forall p | p in Held(w.threads[t]) :: p in w'.locks && w'.locks[p].x.Some?
  {
    hide TreeOk, MemOk, OpenOk, ThreadsOk, SamePage, StageOk, Lookup, Held, TouchAll, Epoch;
    StateOfBusy(w, t, op, past, at);
    hide PageLocks.Inv;
  }

  lemma CommitMem(w: World, w': World, t: Tid, op: Op, past: set<Option<Bytes>>, at: Stage, at': Stage,
                  tree: Tree, m: map<Bytes, Bytes>)
    requires Good(w) && t in w.threads && w.threads[t] == Busy(op, past, at)
    requires Commits(w, w', t, at', tree, m) && tree.pages.Keys == w.tree.pages.Keys
    requires forall p | p in w.locks && p !in Held(w.threads[t]) :: SamePage(w.tree, tree, p)
    ensures MemOk(w') && OpenOk(w')
  {
    hide TreeOk, LocksOk, ThreadsOk, StageOk, Lookup, Held, Touch, Wrote;
    forall q | q in w'.open ensures OpenFits(w', q) {
      OpenByWriter(w, q);
      var u := w.locks[q].x.value;
      TouchHolds(w.threads[u], Held(w.threads[t]), m);
    }
  }

  lemma CommitOwn(w: World, w': World, t: Tid, op: Op, past: set<Option<Bytes>>, at: Stage, at': Stage,
                  tree: Tree, m: map<Bytes, Bytes>)
    requires Good(w) && t in w.threads && w.threads[t] == Busy(op, past, at)
    requires Commits(w, w', t, at', tree, m)
    requires Held(Busy(op, past, at')) <= Held(w.threads[t])
    requires StageOk(w', op, past + {Lookup(m, op.key)}, at')
    ensures ThreadOk(w', t, w'.threads[t])
  {
    hide Good, StageOk, Held, Lookup, Touch, TouchAll;
    StateOfBusy(w, t, op, past, at);
    assert w'.threads[t] == Busy(op, past + {Lookup(m, op.key)}, at');
    HeldByStage(op, past, past + {Lookup(m, op.key)}, at');
  }

  lemma HeldByStage(op: Op, a: set<Option<Bytes>>, b: set<Option<Bytes>>, at: Stage)
    ensures Held(Busy(op, a, at)) == Held(Busy(op, b, at))
  {
  }

  lemma CommitOthers(w: World, w': World, t: Tid, op: Op, past: set<Option<Bytes>>, at: Stage, at': Stage,
                     tree: Tree, m: map<Bytes, Bytes>)
    requires t in w.threads && Commits(w, w', t, at', tree, m)
    ensures w'.threads.Keys == w.threads.Keys && w'.m == m && w'.tree == tree && w'.crashed == w.crashed
    ensures forall u | u in w.threads && u != t :: w'.threads[u] == Touch(w.threads[u], Held(w.threads[t]), w'.m)
  {
    hide Touch, Held, Lookup;
  }

  /** What the holder of a leaf knows: the leaf is the one for the key and the remembered slot is right. */
  lemma LeafKnown(w: World, t: Tid, op: Op, past: set<Option<Bytes>>, k: Leaf)
    requires Good(w) && t in w.threads && w.threads[t] == Busy(op, past, OnLeaf(k)) && k.parent.None?
    ensures Sound(w.tree) && Represents(w.tree, w.m) && IsLeaf(w.tree, k.c)
    ensures var n := w.tree.pages[k.c];
      && WellFormed(n) && n.leaf && Within(op.key, n.lo, n.hi)
      && Get(n, op.key) == Lookup(w.m, op.key) == k.answer && k.slot == Slot(n, op.key) && k.room == Capacity(n)
    ensures Legal(op) && Live(w.tree, k.c, op.key) && w.tree.level[k.c] == 0
    ensures if op.goal.Put? then Need(op, Anew(op)) <= k.room else op.key in w.m
  {
    hide LocksOk, MemOk, OpenOk, ThreadsOk, Within, Get, Tiled, Apart, Chained;
    StateOfBusy(w, t, op, past, OnLeaf(k));
  }

  lemma GetIsMember(n: Node, k: Bytes)
    requires WellFormed(n)
    ensures Get(n, k).Some? <==> k in n.keys
    ensures Get(n, k).Some? ==> Slot(n, k) < |n.keys| && n.keys[Slot(n, k)] == k
  {
    FoundIffMember(n.keys, k);
  }

  /** More than any page id. */
  const NO_PAGE := 0x1_0000_0000_0000_0000

  lemma TreeKeeps(w: World)
    requires Good(w)
    ensures TreeSteps.Keeps(w.tree, w.m, NO_PAGE)
  {
    hide LocksOk, MemOk, OpenOk, ThreadsOk, Sound, Represents, TreeSteps.Sized;
  }

  /** Changing one leaf entry for the key, with the remembered slot. */
  lemma LeafChange(t: Tree, m: map<Bytes, Bytes>, c: Pid, op: Op, slot: nat)
    requires TreeSteps.Keeps(t, m, NO_PAGE) && TreeSteps.OnPath(t, c, op.key) && t.level[c] == 0 && Legal(op)
    requires WellFormed(t.pages[c]) && |t.pages[c].keys| == |t.pages[c].pays| && !op.goal.Find?
    requires if op.goal.Put? then op.key !in m && HasSpaceFor(t.pages[c], |op.key|, |op.goal.v|)
      else op.key in m && slot == Slot(t.pages[c], op.key)
    ensures !op.goal.Put? ==> slot < |t.pages[c].keys| && t.pages[c].pays[slot] == m[op.key]
    ensures TreeSteps.Keeps(Store(t, c, LeafAfter(t.pages[c], op, slot)), MapAfter(m, op), NO_PAGE)
  {
    hide Sound, Represents, TreeSteps.Sized, TreeSteps.Keeps, Within, Less, HasSpaceFor;
    KeepsParts(t, m);
    TreeSteps.LeafFact(t, m, c, op.key);
    match op.goal {
      case Put(v) => TreeSteps.PutKeeps(t, m, NO_PAGE, c, op.key, v);
      case Set(f) => TreeSteps.SetKeeps(t, m, NO_PAGE, c, op.key, f(m[op.key]));
      case Del => TreeSteps.DelKeeps(t, m, NO_PAGE, c, op.key);
      case _ =>
    }
  }

  lemma KeepsParts(t: Tree, m: map<Bytes, Bytes>)
    requires TreeSteps.Keeps(t, m, NO_PAGE)
    ensures Sound(t) && Represents(t, m) && TreeSteps.Sized(t)
  {
    hide Sound, Represents, TreeSteps.Sized;
  }

  function LeafAfter(n: Node, op: Op, slot: nat): Node
    requires WellFormed(n) && |n.keys| == |n.pays| && (!op.goal.Put? ==> slot < |n.keys|)
  {
    match op.goal
    case Put(v) => InsertEntry(n, op.key, v)
    case Set(f) => SetPay(n, slot, f(n.pays[slot]))
    case _ => RemoveAt(n, slot)
  }

  function MapAfter(m: map<Bytes, Bytes>, op: Op): map<Bytes, Bytes> {
    match op.goal
    case Find => m
    case Put(v) => m[op.key := v]
    case Set(f) => if op.key in m then m[op.key := f(m[op.key])] else m
    case Del => m - {op.key}
  }

  lemma CommitLeafGood(w: World, w': World, t: Tid, op: Op, past: set<Option<Bytes>>, k: Leaf)
    requires Good(w) && t in w.threads && w.threads[t] == Busy(op, past, OnLeaf(k))
    requires LeafStep(w, w', t, op, past, k, CommitLeaf) && !(op.goal.Put? && op.key in w.m)
    ensures Good(w')
  {
    hide Good, Within, Get, Sound, Represents, WellFormed, LeafFacts, Lookup, InsertEntry, Commits, Shaped, IsLeaf,
         Store, HasSpaceFor, Legal, TreeSteps.Sized;
    LeafSlot(w, t, op, past, k);
    LeafChanged(w, t, op, past, k);
    StateOfBusy(w, t, op, past, OnLeaf(k));
    LeafCommit(w, w', t, op, past, k, LeafAfter(w.tree.pages[k.c], op, k.slot), MapAfter(w.m, op));
  }

  lemma LeafChanged(w: World, t: Tid, op: Op, past: set<Option<Bytes>>, k: Leaf)
    requires Good(w) && t in w.threads && w.threads[t] == Busy(op, past, OnLeaf(k)) && k.parent.None?
    requires !op.goal.Find? && (op.goal.Put? ==> op.key !in w.m)
    ensures k.c in w.tree.pages && WellFormed(w.tree.pages[k.c]) && |w.tree.pages[k.c].keys| == |w.tree.pages[k.c].pays|
    ensures !op.goal.Put? ==> op.key in w.m && k.slot < |w.tree.pages[k.c].keys| && w.tree.pages[k.c].pays[k.slot] == w.m[op.key]
    ensures var u := Store(w.tree, k.c, LeafAfter(w.tree.pages[k.c], op, k.slot));
      Sound(u) && Represents(u, MapAfter(w.m, op)) && TreeSteps.Sized(u)
  {
    hide Good, Within, Get, LeafFacts, Lookup, InsertEntry, Slot, Tiled, Apart, Chained, Legal, TreeSteps.Sized,
         Represents, Sorted, Capacity;
    LeafKnown(w, t, op, past, k);
    TreeKeeps(w);
    LeafSlot(w, t, op, past, k);
    LeafChange(w.tree, w.m, k.c, op, k.slot);
    KeepsParts(Store(w.tree, k.c, LeafAfter(w.tree.pages[k.c], op, k.slot)), MapAfter(w.m, op));
  }

  lemma LeafSlot(w: World, t: Tid, op: Op, past: set<Option<Bytes>>, k: Leaf)
    requires Good(w) && t in w.threads && w.threads[t] == Busy(op, past, OnLeaf(k)) && k.parent.None?
    ensures Shaped(w.tree) && IsLeaf(w.tree, k.c) && k.c in w.tree.pages && WellFormed(w.tree.pages[k.c])
    ensures |w.tree.pages[k.c].keys| == |w.tree.pages[k.c].pays|
    ensures if op.goal.Put? then HasSpaceFor(w.tree.pages[k.c], |op.key|,
        |op.goal.v|) else k.slot < |w.tree.pages[k.c].keys|
  {
    hide Good, LeafFacts, Legal, Tiled, Apart, Chained, Represents;
    LeafKnown(w, t, op, past, k);
    GetIsMember(w.tree.pages[k.c], op.key);
  }

  lemma LeafCommit(w: World, w': World, t: Tid, op: Op, past: set<Option<Bytes>>, k: Leaf, n': Node, m': map<Bytes,
                   Bytes>)
    requires Good(w) && t in w.threads && w.threads[t] == Busy(op, past, OnLeaf(k))
    requires k.c in w.tree.pages && Owns(w, t, k.c)
    requires Commits(w, w', t, Unwinding(Back({k.c}, Anew(op), Some(k.answer))), Store(w.tree, k.c, n'), m')
    requires Sound(Store(w.tree, k.c, n')) && Represents(Store(w.tree, k.c, n'), m')
    requires TreeSteps.Sized(Store(w.tree, k.c, n'))
    ensures Good(w')
  {
    hide Good, Sound, Represents, Lookup, Commits, TreeSteps.Sized;
    CommitGood(w, w', t, op, past, OnLeaf(k), Unwinding(Back({k.c}, Anew(op), Some(k.answer))), Store(w.tree, k.c, n'),
        m');
  }

  lemma CommitRootGood(w: World, w': World, t: Tid, op: Op, past: set<Option<Bytes>>, k: Pair)
    requires Good(w) && t in w.threads && w.threads[t] == Busy(op, past, OnPair(k))
    requires PairStep(w, w', t, op, past, k, CommitRoot)
    ensures Good(w')
  {
    hide Good, Within, Get, Sound, Represents, WellFormed, Lookup, Commits, Tells, Owns, PairOk, GrowRoot;
    PairFacts(w, t, op, past, k);
    var r := k.spare.value;
    var k' := k.(p := r, pos := 0, spare := None, extra := k.extra + {META}, wrote := false);
    RootFacts(w, k);
    GrowRootSound(w.tree, w.m, r);
    RootSized(w, r);
    RootSame(w, t, k);
    CommitsTree(w, w', t, OnPair(k'), GrowRoot(w.tree, r), w.m);
    RootPair(w, w', k);
    CommitGood(w, w', t, op, past, OnPair(k), OnPair(k'), GrowRoot(w.tree, r), w.m);
  }

  lemma RootSized(w: World, r: Pid)
    requires Good(w)
    ensures Shaped(w.tree) && TreeSteps.Sized(GrowRoot(w.tree, r))
  {
    hide LocksOk, MemOk, OpenOk, ThreadsOk, Tiled, Apart, Chained, Represents, TreeSteps.Sized, WellFormed;
    TreeSteps.GrowSized(w.tree, r);
  }

  lemma CommitsTree(w: World, w': World, t: Tid, at: Stage, tree: Tree, m: map<Bytes, Bytes>)
    requires t in w.threads && Commits(w, w', t, at, tree, m)
    ensures w'.tree == tree && w'.m == m && w'.locks == w.locks
  {
    hide Touch, Held, TouchAll;
  }

  lemma RootFacts(w: World, k: Pair)
    requires Good(w) && PairOk(w, k) && k.p == META && k.spare.Some?
    ensures Sound(w.tree) && Represents(w.tree, w.m) && w.tree.pages[META].link == k.c && k.pos == 0
    ensures k.spare.value !in w.tree.level && k.spare.value != NO_NEIGHBOUR && META != k.spare.value
  {
    hide LocksOk, MemOk, OpenOk, ThreadsOk, Within, Get, Less;
  }

  lemma RootSame(w: World, t: Tid, k: Pair)
    requires Good(w) && PairOk(w, k) && k.p == META && k.spare.Some? && Owns(w, t, k.spare.value)
    ensures Shaped(w.tree) && GrowRoot(w.tree, k.spare.value).pages.Keys == w.tree.pages.Keys
    ensures forall p | p in w.locks && p !in PairPages(k) :: SamePage(w.tree, GrowRoot(w.tree, k.spare.value), p)
  {
    hide LocksOk, OpenOk, ThreadsOk, Within, Get, WellFormed;
  }

  /** The pair seen from the new root. */
  lemma RootPair(w: World, w': World, k: Pair)
    requires Good(w) && PairOk(w, k) && k.p == META && k.spare.Some? && k.right.None?
    requires k.c in w.tree.level && w.tree.level[k.c] + 1 == w.tree.level[META]
    requires w'.tree == GrowRoot(w.tree, k.spare.value)
    ensures PairOk(w', k.(p := k.spare.value, pos := 0, spare := None, extra := k.extra + {META}, wrote := false))
  {
    hide LocksOk, MemOk, OpenOk, ThreadsOk, Get, Less;
    RootFacts(w, k);
    var u := GrowRoot(w.tree, k.spare.value);
    assert u.pages[k.c] == w.tree.pages[k.c];
  }

  /** A page that has no room for what an insert needs can be cut, at a slot that is admitted. */
  lemma FullCuttable(w: World, t: Tid, op: Op, past: set<Option<Bytes>>, k: Pair)
    requires Good(w) && t in w.threads && w.threads[t] == Busy(op, past, OnPair(k)) && op.goal.Put? && !k.gone
    ensures k.c in w.tree.pages && k.p in w.tree.pages && Cuttable(w.tree.pages[k.c]) && WellFormed(w.tree.pages[k.p])
    ensures forall ordered :: SlotAllowed(FindSeparator(w.tree.pages[k.c], ordered).slot)
  {
    hide LocksOk, MemOk, OpenOk, ThreadsOk, Tiled, Apart, Chained, Represents, Within, Sorted, Size, Small, Slot,
         Kid, Get, FindSeparator, SlotAllowed;
    PairFacts(w, t, op, past, k);
    var n := w.tree.pages[k.c];
    assert TreeSteps.SizedPage(w.tree, k.c) && n == w.tree.pages[k.c];
    CapacityTold(w, k);
    if n.leaf { FullLeafBy(n, op, k.trip); } else { FullInnerBy(n, op, k.trip); }
    forall ordered ensures SlotAllowed(FindSeparator(n, ordered).slot) { SepSlotAllowed(n, ordered); }
  }

  lemma CapacityTold(w: World, k: Pair)
    requires Good(w) && PairOk(w, k) && !k.gone && k.c in w.tree.level
    ensures k.c in w.tree.pages && WellFormed(w.tree.pages[k.c]) && |w.tree.pages[k.c].keys| == |w.tree.pages[k.c].pays|
    ensures k.decision.room == Capacity(w.tree.pages[k.c])
  {
    hide LocksOk, MemOk, OpenOk, ThreadsOk, Tiled, Apart, Chained, Represents, Sorted, Capacity, Slot, Get, Kid,
         TreeSteps.Sized;
  }

  lemma FullLeafBy(n: Node, op: Op, trip: Trip)
    requires WellFormed(n) && n.leaf && Small(n, SHORT) && op.goal.Put? && Legal(op) && TripOk(op, trip)
    requires Need(op, trip) > Capacity(n)
    ensures |n.keys| >= 3
  {
    if trip.target.Some? { FullShortLeaf(n, |trip.route|, 8); } else { FullShortLeaf(n, |op.key|, |op.goal.v|); }
  }

  lemma FullInnerBy(n: Node, op: Op, trip: Trip)
    requires WellFormed(n) && !n.leaf && Small(n, SHORT) && op.goal.Put? && Legal(op) && TripOk(op, trip)
    requires Need(op, trip) > Capacity(n)
    ensures |n.keys| >= 2
  {
    if |n.keys| <= 1 { OneKeyRoomy(n); }
  }

  lemma OneKeyRoomy(n: Node)
    requires !n.leaf && Small(n, SHORT) && |n.keys| == |n.pays| <= 1
    ensures Capacity(n) > MAX_KV
  {
    if |n.keys| == 1 { assert Bulk(n.keys, n.pays, Prefix(n)) == SLOT + |n.keys[0]| - Prefix(n) + |n.pays[0]|; }
  }

  lemma SplitReady(w: World, t: Tid, op: Op, past: set<Option<Bytes>>, k: Pair, ordered: bool)
    requires Good(w) && t in w.threads && w.threads[t] == Busy(op, past, OnPair(k))
    requires k.p != META && k.spare.Some? && k.right.None? && k.c in w.tree.pages && Cuttable(w.tree.pages[k.c])
    ensures TreeSteps.Cuts(w.tree, k.p, k.c) && Represents(w.tree, w.m) && TreeSteps.Sized(w.tree)
    ensures CanSplit(w.tree, k.p, k.c, TreeSteps.CutSlot(w.tree, k.c, ordered), TreeSteps.CutKey(w.tree, k.c, ordered),
        k.spare.value)
    ensures Inner(w.tree.pages[k.p]) && |w.tree.pages[k.p].keys| == |w.tree.pages[k.p].pays|
  {
    hide LocksOk, MemOk, OpenOk, ThreadsOk, Within, Less, Sorted, Tiled, Apart, Chained, FindSeparator, Separator,
         Kid, Slot, TreeSteps.Sized, GoodCut;
    PairFacts(w, t, op, past, k);
    assert TreeSteps.Cuts(w.tree, k.p, k.c);
    TreeSteps.CutReady(w.tree, k.p, k.c, k.trip.route, ordered, k.spare.value);
  }

  lemma SplitSame(w: World, t: Tid, k: Pair, slot: nat, sep: Bytes)
    requires Good(w) && k.spare.Some? && CanSplit(w.tree, k.p, k.c, slot, sep, k.spare.value)
    requires Owns(w, t, k.spare.value)
    ensures var u := SplitTree(w.tree, k.p, k.c, slot, sep, k.spare.value);
      && u.pages.Keys == w.tree.pages.Keys
      && forall p | p in w.locks && p !in PairPages(k) :: SamePage(w.tree, u, p)
  {
    hide LocksOk, OpenOk, ThreadsOk, Within, Get, WellFormed, SplitLeft, SplitRight, SplitParent, GoodCut, Tiled,
         Apart, Chained;
  }

  /** The left half fits unless the guard says that it overflows. */
  lemma LeftFitsUnless(w: World, t: Tid, op: Op, past: set<Option<Bytes>>, k: Pair, ordered: bool)
    requires Good(w) && t in w.threads && w.threads[t] == Busy(op, past, OnPair(k))
    requires k.p != META && k.spare.Some? && k.right.None? && k.c in w.tree.pages && Cuttable(w.tree.pages[k.c])
    ensures var slot, sep := TreeSteps.CutSlot(w.tree, k.c, ordered), TreeSteps.CutKey(w.tree, k.c, ordered);
      && slot < |w.tree.pages[k.c].keys|
      && var left := SplitLeft(w.tree.pages[k.c], slot, sep, k.spare.value);
         |left.keys| == |left.pays| && (Fits(left) <==> !LeftOverflows(w.tree.pages[k.c], ordered))
  {
    hide LocksOk, MemOk, OpenOk, ThreadsOk, Within, Less, Sorted, Tiled, Apart, Chained, Represents, FindSeparator,
         Separator, Kid, Slot, GoodCut, Size, Small, Gain, Moved;
    SplitReady(w, t, op, past, k, ordered);
    TreeSteps.CutGood(w.tree, k.p, k.c, ordered);
    assert TreeSteps.SizedPage(w.tree, k.c);
    SepInRange(w.tree.pages[k.c], ordered);
    LeftFits(w.tree.pages[k.c], ordered, k.spare.value);
  }

  lemma CommitSplitGood(w: World, w': World, t: Tid, op: Op, past: set<Option<Bytes>>, k: Pair, ordered: bool)
    requires Good(w) && t in w.threads && w.threads[t] == Busy(op, past, OnPair(k))
    requires PairStep(w, w', t, op, past, k, CommitSplit(ordered)) && !Spoils(w, t, CommitSplit(ordered))
    ensures Good(w')
  {
    hide Good, Sound, Represents, Lookup, Commits, PairOk, Owns, CanSplit, GoodCut, WellFormed, SplitTree, Legal,
         TreeSteps.Sized, FindSeparator, Separator, Fits, HasSpaceFor, SplitLeft, LeftOverflows, Reason;
    PairFacts(w, t, op, past, k);
    SplitPut(w, t, op, past, k);
    FullCuttable(w, t, op, past, k);
    SplitReady(w, t, op, past, k, ordered);
    LeftFitsUnless(w, t, op, past, k, ordered);
    var slot, sep := TreeSteps.CutSlot(w.tree, k.c, ordered), TreeSteps.CutKey(w.tree, k.c, ordered);
    SplitSound(w.tree, w.m, k.p, k.c, slot, sep, k.spare.value);
    TreeSteps.SplitSized(w.tree, k.p, k.c, k.spare.value, ordered);
    SplitSame(w, t, k, slot, sep);
    CommitGood(w, w', t, op, past, OnPair(k), Unwinding(Back(PairPages(k), Anew(op), None)),
               SplitTree(w.tree, k.p, k.c, slot, sep, k.spare.value), w.m);
  }

  /** Only an insert has a spare page. */
  lemma SplitPut(w: World, t: Tid, op: Op, past: set<Option<Bytes>>, k: Pair)
    requires Good(w) && t in w.threads && w.threads[t] == Busy(op, past, OnPair(k)) && k.spare.Some?
    ensures op.goal.Put? && !k.gone
  {
    hide Good, Hangs, Tells, Kid, Owns, Within, Legal, TripOk, More;
    PairFacts(w, t, op, past, k);
  }

  ghost predicate DelFacts(w: World, key: Bytes, k: Pair) {
    && Sound(w.tree) && Represents(w.tree, w.m) && IsLeaf(w.tree, k.c)
    && k.p in w.tree.level && w.tree.level[k.p] == 1 && k.c in w.tree.pages
    && k.decision.Here?
    && var n := w.tree.pages[k.c];
       && WellFormed(n) && n.leaf && Within(key, n.lo, n.hi) && Get(n, key) == Lookup(w.m, key)
       && k.decision.slot == Slot(n, key) < |n.keys| == |n.pays| && key in w.m
  }

  /** What the holder of an underfull leaf, its parent and its right neighbour knows. */
  lemma DelReady(w: World, t: Tid, op: Op, past: set<Option<Bytes>>, k: Pair)
    requires Good(w) && t in w.threads && w.threads[t] == Busy(op, past, OnPair(k))
    requires !k.gone && k.right.Some? && op.goal.Del?
    ensures DelFacts(w, op.key, k)
  {
    hide LocksOk, MemOk, OpenOk, ThreadsOk, Within, Less, Get, Tiled, Apart, Chained;
    PairFacts(w, t, op, past, k);
    GetIsMember(w.tree.pages[k.c], op.key);
  }

  lemma DelPair(w: World, w': World, k: Pair, n': Node)
    requires Good(w) && PairOk(w, k) && k.c != k.p && k.right.Some? && w.tree.level[k.p] == 1
    requires w'.tree == Store(w.tree, k.c, n')
    ensures PairOk(w', k.(gone := true, wrote := false))
  {
    hide Good, Within, WellFormed, Kid, Slot, Tells;
  }

  lemma DelKept(w: World, op: Op, k: Pair)
    requires Good(w) && DelFacts(w, op.key, k) && op.goal.Del?
    ensures var u := Store(w.tree, k.c, RemoveAt(w.tree.pages[k.c], k.decision.slot));
      Sound(u) && Represents(u, w.m - {op.key}) && TreeSteps.Sized(u)
  {
    hide Good, Tiled, Apart, Chained, Represents, Within, Get, Slot, Less, Sorted, TreeSteps.Sized;
    TreeKeeps(w);
    LeafChange(w.tree, w.m, k.c, op, k.decision.slot);
    KeepsParts(Store(w.tree, k.c, RemoveAt(w.tree.pages[k.c], k.decision.slot)), w.m - {op.key});
  }

  lemma CommitDelGood(w: World, w': World, t: Tid, op: Op, past: set<Option<Bytes>>, k: Pair)
    requires Good(w) && t in w.threads && w.threads[t] == Busy(op, past, OnPair(k))
    requires PairStep(w, w', t, op, past, k, CommitDel)
    ensures Good(w')
  {
    hide Good, Shaped, Tiled, Apart, Chained, Represents, Lookup, Commits, PairOk, Owns, WellFormed, Within, Get, Slot,
         Legal, TreeSteps.Sized;
    PairFacts(w, t, op, past, k);
    DelReady(w, t, op, past, k);
    var n' := RemoveAt(w.tree.pages[k.c], k.decision.slot);
    DelKept(w, op, k);
    var k' := k.(gone := true, wrote := false);
    CommitsTree(w, w', t, OnPair(k'), Store(w.tree, k.c, n'), w.m - {op.key});
    DelPair(w, w', k, n');
    CommitGood(w, w', t, op, past, OnPair(k), OnPair(k'), Store(w.tree, k.c, n'), w.m - {op.key});
  }

  lemma MergeReady(w: World, t: Tid, op: Op, past: set<Option<Bytes>>, k: Pair)
    requires Good(w) && t in w.threads && w.threads[t] == Busy(op, past, OnPair(k))
    requires k.gone && k.right.Some?
    ensures CanMerge(w.tree, k.p, k.pos) && Represents(w.tree, w.m)
    ensures Kid(w.tree.pages[k.p], k.pos) == k.c && Kid(w.tree.pages[k.p], k.pos + 1) == k.right.value
  {
    hide LocksOk, MemOk, OpenOk, ThreadsOk, Within, Less, Get, Tiled, Apart, Chained, WellFormed, Tells, Slot;
    PairFacts(w, t, op, past, k);
  }

  lemma MergeSame(w: World, k: Pair)
    requires Good(w) && CanMerge(w.tree, k.p, k.pos) && k.right.Some?
    requires Kid(w.tree.pages[k.p], k.pos) == k.c && Kid(w.tree.pages[k.p], k.pos + 1) == k.right.value
    ensures MergeTree(w.tree, k.p, k.pos).pages.Keys == w.tree.pages.Keys
    ensures forall p | p in w.locks && p !in PairPages(k) :: SamePage(w.tree, MergeTree(w.tree, k.p, k.pos), p)
  {
    hide LocksOk, OpenOk, ThreadsOk, Within, Get, WellFormed, MergeLeaves, MergeParent, Apart, Chained, Kid;
    KidFact(w.tree, k.p, k.pos);
  }

  lemma MergeKept(w: World, k: Pair)
    requires Good(w) && CanMerge(w.tree, k.p, k.pos) && Represents(w.tree, w.m) && k.right.Some?
    requires Kid(w.tree.pages[k.p], k.pos) == k.c && Kid(w.tree.pages[k.p], k.pos + 1) == k.right.value
    requires BoundedMerge(w.tree, k.c, k.right.value)
    ensures var u := MergeTree(w.tree, k.p, k.pos); Sound(u) && Represents(u, w.m) && TreeSteps.Sized(u)
  {
    hide Good, Sound, Represents, CanMerge, Kid, TreeSteps.Sized, SpaceUpperBound, MergeTree;
    TreeKeeps(w);
    TreeSteps.MergeKeeps(w.tree, w.m, NO_PAGE, k.p, k.pos);
    KeepsParts(MergeTree(w.tree, k.p, k.pos), w.m);
  }

  lemma CommitMergeGood(w: World, w': World, t: Tid, op: Op, past: set<Option<Bytes>>, k: Pair)
    requires Good(w) && t in w.threads && w.threads[t] == Busy(op, past, OnPair(k))
    requires PairStep(w, w', t, op, past, k, CommitMerge)
    ensures Good(w')
  {
    hide Good, Sound, Represents, Lookup, Commits, PairOk, Owns, CanMerge, WellFormed, MergeTree, Kid, Shaped;
    PairFacts(w, t, op, past, k);
    MergeReady(w, t, op, past, k);
    MergeKept(w, k);
    MergeSame(w, k);
    CommitGood(w, w', t, op, past, OnPair(k), Unwinding(Back(PairPages(k), Anew(op), Some(k.decision.answer))),
               MergeTree(w.tree, k.p, k.pos), w.m);
  }

  // ----- every step -----

  lemma LeafGood(w: World, w': World, t: Tid, op: Op, past: set<Option<Bytes>>, k: Leaf, e: Event)
    requires Good(w) && t in w.threads && w.threads[t] == Busy(op, past, OnLeaf(k))
    requires LeafStep(w, w', t, op, past, k, e) && !Spoils(w, t, e)
    ensures Good(w')
  {
    hide Good, Checks, Writes, Commits, Crashes, Shaped, WellFormed, HasSpaceFor, Store, InsertEntry, SetPay, RemoveAt;
    match e {
      case CheckParentHeld => LeafCheckGood(w, w', t, op, past, k);
      case Write(p, n) => LeafWriteGood(w, w', t, op, past, k, n);
      case CommitLeaf => CommitLeafGood(w, w', t, op, past, k);
      case _ => assert false;
    }
  }

  lemma PairGood(w: World, w': World, t: Tid, op: Op, past: set<Option<Bytes>>, k: Pair, e: Event)
    requires Good(w) && t in w.threads && w.threads[t] == Busy(op, past, OnPair(k))
    requires PairStep(w, w', t, op, past, k, e) && !Spoils(w, t, e)
    ensures Good(w')
  {
    hide Good, Spoils, PairStep;
    PairEvents(w, w', t, op, past, k, e);
    match e {
      case LockRight => LockRightGood(w, w', t, op, past, k);
      case Alloc(r, n) => AllocGood(w, w', t, op, past, k, r, n);
      case Write(p, n) => PairWriteGood(w, w', t, op, past, k, p, n);
      case CommitRoot => CommitRootGood(w, w', t, op, past, k);
      case CommitSplit(ordered) => CommitSplitGood(w, w', t, op, past, k, ordered);
      case CommitDel => CommitDelGood(w, w', t, op, past, k);
      case CommitMerge => CommitMergeGood(w, w', t, op, past, k);
      case GiveUp(ordered) => GiveUpGood(w, w', t, op, past, k, ordered);
      case Leave => PairMoveGood(w, w', t, op, past, k, e);
      case Unlock(_) => PairMoveGood(w, w', t, op, past, k, e);
    }
  }

  lemma PairEvents(w: World, w': World, t: Tid, op: Op, past: set<Option<Bytes>>, k: Pair, e: Event)
    requires t in w.threads && PairStep(w, w', t, op, past, k, e)
    ensures || e.LockRight? || e.Alloc? || e.Write? || e.CommitRoot? || e.CommitSplit? || e.CommitDel? || e.CommitMerge?
            || e.GiveUp? || e.Leave? || e.Unlock?
  {
    hide Commits, Writes, TakesX, DropsX, Crashes, Moves, CanSplit, CanMerge, Shaped, Kid, Inner, Fits, FindSeparator,
         Separator, WellFormed, HasSpaceFor, Cuttable, SplitLeft, SplitTree, MergeTree, GrowRoot, BoundedMerge;
  }

  /** One step of any thread keeps the invariant, unless it stores a key twice or overflows a page. */
  lemma NextGood(w: World, w': World, t: Tid, e: Event)
    requires Good(w) && Next(w, w', t, e) && (e.Call? ==> Legal(e.op)) && !Spoils(w, t, e)
    ensures Good(w')
  {
    hide Good, WalkStep, LeafStep, TopStep, PairStep, BackStep, Moves, MovesLock, CanGuard, Guarded, Enabled,
         Apply, Lookup, Legal, Spoils;
    match w.threads[t] {
      case Agent => AgentGood(w, w', t, e.p, e.a);
      case Idle => CallGood(w, w', t, e.op);
      case Busy(op, past, at) =>
        match at {
          case Starting(trip) => EnterGood(w, w', t, op, past, trip);
          case Walking(k) => WalkGood(w, w', t, op, past, k, e);
          case OnLeaf(k) => LeafGood(w, w', t, op, past, k, e);
          case OnParent(k) => TopGood(w, w', t, op, past, k, e);
          case OnPair(k) => PairGood(w, w', t, op, past, k, e);
          case Unwinding(k) => BackGood(w, w', t, op, past, k, e);
          case Finished(answer) => RetireGood(w, w', t, op, past, answer);
        }
    }
  }

  /** Such a step does go wrong. */
  lemma NextSpoiled(w: World, w': World, t: Tid, e: Event)
    requires Good(w) && Next(w, w', t, e) && Spoils(w, t, e)
    ensures w'.crashed
  {
    hide Good, Commits, CanGuard, Guarded, Enabled, Apply, Lookup, Legal, Shaped, CanSplit, FindSeparator, Separator,
         WellFormed, SplitLeft, SplitTree, LeftOverflows, HasSpaceFor, Fits, InsertEntry, PairOk;
    var th := w.threads[t];
    if e.CommitSplit? { LeftFitsUnless(w, t, th.op, th.past, th.at.pair, e.ordered); }
  }
}
