/** What a thread gets done when the others rest: every operation has a run of its own that ends with the right answer
    and the right map. So the steps of the interleaved tree are not only harmless, they lead somewhere. This module has
    the walk down to a leaf, lookups, and changes of one leaf; it ends with what threads may always do to each other. */
module Solo {
  import opened Keys
  import opened Nodes
  import opened PageLocks
  import opened Reads
  import opened Spaces
  import opened Trees
  import opened Olc
  import opened OlcProofs
  import opened Linear
  import TreeSteps

  // ----- steps of one thread -----

  /** One harmless step inside an operation. */
  ghost predicate Goes(w: World, w': World, t: Tid, e: Event) {
    Next(w, w', t, e) && !Spoils(w, t, e) && !e.Call? && !e.Retire?
  }

  /** Thread `t` alone gets from `w` to `w'` in `n` steps. */
  ghost predicate Can(w: World, w': World, t: Tid, n: nat)
    decreases n
  {
    if n == 0 then w' == w else exists u, e :: Goes(w, u, t, e) && Can(u, w', t, n - 1)
  }

  lemma {:induction false} CanThen(a: World, b: World, c: World, t: Tid, n: nat, k: nat)
    requires Can(a, b, t, n) && Can(b, c, t, k)
    ensures Can(a, c, t, n + k)
    decreases n
  {
    hide Goes;
    if n > 0 {
      var u, e :| Goes(a, u, t, e) && Can(u, b, t, n - 1);
      CanThen(u, b, c, t, n - 1, k);
      assert Goes(a, u, t, e) && Can(u, c, t, n - 1 + k);
    }
  }

  lemma StepCan(w: World, w': World, t: Tid, e: Event)
    requires Good(w) && Goes(w, w', t, e)
    ensures Can(w, w', t, 1) && Good(w')
  {
    NextGood(w, w', t, e) by { hide Good, Next, Spoils; }
    hide Good, Goes;
    assert Can(w', w', t, 0);
    assert Goes(w, w', t, e) && Can(w', w', t, 0);
  }

  /** Nobody holds a page alone, and no page is evicted. */
  ghost predicate Free(w: World) {
    forall p | p in w.locks :: w.locks[p].x.None? && StateOf(w.locks[p].word) != EVICTED
  }

  /** The same locks, but for marks that have been cleared. */
  ghost predicate SameLocks(a: map<Pid, Lock>, b: map<Pid, Lock>) {
    && a.Keys == b.Keys
    && forall p | p in a ::
      && b[p].x == a[p].x && b[p].s == a[p].s && VersionOf(b[p].word) == VersionOf(a[p].word)
      && (StateOf(b[p].word) == StateOf(a[p].word) || (StateOf(a[p].word) == MARKED && StateOf(b[p].word) == UNLOCKED))
  }

  /** Only thread `t` has moved on, and marks have been cleared. */
  ghost predicate OnlyMoved(w: World, w': World, t: Tid) {
    && t in w'.threads && w' == w.(threads := w.threads[t := w'.threads[t]], locks := w'.locks)
    && SameLocks(w.locks, w'.locks)
  }

  lemma MovedTwice(a: World, b: World, c: World, t: Tid)
    requires OnlyMoved(a, b, t) && OnlyMoved(b, c, t)
    ensures OnlyMoved(a, c, t)
  {
    hide StateOf, VersionOf;
  }

  /** Thread `t` alone gets there, and changes nothing on the way but itself and marks. */
  ghost predicate Led(w: World, w': World, t: Tid, n: nat) {
    Can(w, w', t, n) && OnlyMoved(w, w', t)
  }

  lemma LedThen(a: World, b: World, c: World, t: Tid, n: nat, k: nat)
    requires Led(a, b, t, n) && Led(b, c, t, k)
    ensures Led(a, c, t, n + k)
  {
    hide Can, OnlyMoved;
    CanThen(a, b, c, t, n, k);
    MovedTwice(a, b, c, t);
  }

  lemma LedSame(w: World, w': World, t: Tid, n: nat)
    requires Led(w, w', t, n)
    ensures w'.tree == w.tree && w'.mem == w.mem && w'.m == w.m
  {
    hide Can;
  }

  lemma MovedFree(w: World, w': World, t: Tid, g: Guard)
    requires OnlyMoved(w, w', t)
    ensures Free(w) ==> Free(w')
    ensures Valid(w, g) ==> Valid(w', g)
  {
    hide StateOf, VersionOf;
  }

  lemma MoveOnly(w: World, w': World, t: Tid, th: Thread)
    requires Moves(w, w', t, th)
    ensures OnlyMoved(w, w', t) && w'.threads[t] == th
  {
    hide StateOf, VersionOf;
  }

  lemma MoveGuarded(w: World, w': World, t: Tid, th: Thread, p: Pid)
    requires p in w.locks && CanGuard(w.locks[p]) && MovesLock(w, w', t, th, p, Guarded(w.locks[p]))
    ensures OnlyMoved(w, w', t) && w'.threads[t] == th
  {
    SameVersionUnpacks(w.locks[p].word, UNLOCKED);
    hide StateOf, VersionOf, SameVersion;
  }

  /** A valid guard of a free page passes its check. */
  lemma ValidPasses(w: World, g: Guard)
    requires Good(w) && Sane(w, g) && Valid(w, g)
    requires w.locks[g.pid].x.None? && StateOf(w.locks[g.pid].word) != EVICTED
    ensures CheckPasses(g.word, w.locks[g.pid].word) && CanGuard(w.locks[g.pid])
  {
    LockInv(w, g.pid);
    CheckMeaning(g.word, w.locks[g.pid].word);
    hide Good, StateOf, VersionOf;
  }

  lemma FreeGuard(w: World, p: Pid)
    requires Good(w) && p in w.locks && w.locks[p].x.None? && StateOf(w.locks[p].word) != EVICTED
    ensures CanGuard(w.locks[p]) && Valid(w, Guard(p, Guarded(w.locks[p]).word))
  {
    LockInv(w, p);
    GuardedFair(0, w.locks[p]) by { hide Good, StateOf, VersionOf, SameVersion, Guarded; }
    hide Good, StateOf, VersionOf, SameVersion;
  }

  // ----- walking down -----

  ghost predicate Walks(w: World, t: Tid, op: Op, past: set<Option<Bytes>>, k: Walk) {
    && Good(w) && Free(w) && t in w.threads && w.threads[t] == Busy(op, past, Walking(k))
    && Valid(w, k.cur) && (k.parent.Some? ==> Valid(w, k.parent.value)) && Live(w.tree, k.cur.pid, k.trip.route)
  }

  /** A page is about to be read. */
  ghost predicate Arrives(w: World, t: Tid, op: Op, past: set<Option<Bytes>>, k: Walk) {
    Walks(w, t, op, past, k) && k.look.Blank? && !k.checked
  }

  /** It has been read as it is. */
  ghost predicate HasRead(w: World, t: Tid, op: Op, past: set<Option<Bytes>>, k: Walk) {
    && Walks(w, t, op, past, k) && k.cur.pid in w.tree.pages && WellFormed(w.tree.pages[k.cur.pid])
    && k.look == Seen(Decide(w.tree.pages[k.cur.pid], k.trip.route))
  }

  lemma WalkSane(w: World, t: Tid, op: Op, past: set<Option<Bytes>>, k: Walk)
    requires Good(w) && t in w.threads && w.threads[t] == Busy(op, past, Walking(k))
    ensures Sane(w, k.cur) && (k.parent.Some? ==> Sane(w, k.parent.value))
  {
    hide Good, Sane, Valid, Hangs, Live, Tells, Legal, Lookup;
    StateOfBusy(w, t, op, past, Walking(k));
  }

  lemma PageRead(w: World, t: Tid, op: Op, past: set<Option<Bytes>>, k: Walk)
    requires Walks(w, t, op, past, k)
    ensures k.cur.pid in w.tree.pages && WellFormed(w.tree.pages[k.cur.pid])
    ensures k.cur.pid in w.mem && w.mem[k.cur.pid] == w.tree.pages[k.cur.pid]
  {
    WalkSane(w, t, op, past, k);
    UnlockedSame(w, k.cur) by { hide Good, Sane, Valid, Free; }
    LivePage(w, k.cur.pid, k.trip.route) by { hide Good, Live, Sane, Valid, Free; }
  }

  lemma LivePage(w: World, p: Pid, key: Bytes)
    requires Good(w) && Live(w.tree, p, key)
    ensures p in w.tree.pages && WellFormed(w.tree.pages[p])
  {
    hide LocksOk, MemOk, OpenOk, ThreadsOk, Tiled, Apart, Chained, Within, TreeSteps.Sized, Represents;
  }

  /** A step that only moves the thread on. */
  lemma MoveWalk(w: World, t: Tid, op: Op, past: set<Option<Bytes>>, k: Walk, k': Walk, e: Event) returns (w': World)
    requires Walks(w, t, op, past, k) && k'.trip == k.trip && k'.cur == k.cur && k'.parent == k.parent
    requires var th := Busy(op, past, Walking(k')); Goes(w, w.(threads := w.threads[t := th]), t, e)
    ensures Led(w, w', t, 1) && Walks(w', t, op, past, k')
  {
    hide Good, Live, Valid, Free, Goes;
    var th := Busy(op, past, Walking(k'));
    w' := w.(threads := w.threads[t := th]);
    StepCan(w, w', t, e);
    MoveOnly(w, w', t, th);
    MovedFree(w, w', t, k.cur);
    if k.parent.Some? { MovedFree(w, w', t, k.parent.value); }
  }

  /** The thread reads the page it is at. */
  lemma ReadPage(w: World, t: Tid, op: Op, past: set<Option<Bytes>>, k: Walk) returns (w': World, k': Walk)
    requires Arrives(w, t, op, past, k)
    ensures Led(w, w', t, 2) && HasRead(w', t, op, past, k')
    ensures k' == k.(look := k'.look)
  {
    var k1 := k.(look := Reading(false));
    BeginGoes(w, t, op, past, k, k1);
    var u := MoveWalk(w, t, op, past, k, k1, BeginRead);
    PageRead(u, t, op, past, k1);
    hide Walks, Led, Decide, WellFormed;
    var d := Decide(u.mem[k.cur.pid], k1.trip.route);
    k' := k1.(look := Seen(d));
    EndGoes(u, t, op, past, k1, k', d);
    w' := MoveWalk(u, t, op, past, k1, k', EndRead(d));
    LedThen(w, u, w', t, 1, 1);
    PageRead(w', t, op, past, k');
    LedSame(u, w', t, 1);
  }

  lemma BeginGoes(w: World, t: Tid, op: Op, past: set<Option<Bytes>>, k: Walk, k': Walk)
    requires t in w.threads && w.threads[t] == Busy(op, past, Walking(k)) && k.look.Blank?
        && k' == k.(look := Reading(false))
    ensures Goes(w, w.(threads := w.threads[t := Busy(op, past, Walking(k'))]), t, BeginRead)
  {
  }

  lemma EndGoes(w: World, t: Tid, op: Op, past: set<Option<Bytes>>, k: Walk, k': Walk, d: Decision)
    requires t in w.threads && w.threads[t] == Busy(op, past, Walking(k)) && k.look.Reading?
        && k' == k.(look := Seen(d))
    requires k.cur.pid in w.mem && WellFormed(w.mem[k.cur.pid]) && d == Decide(w.mem[k.cur.pid], k.trip.route)
    ensures Goes(w, w.(threads := w.threads[t := Busy(op, past, Walking(k'))]), t, EndRead(d))
  {
    hide WellFormed, Decide, Searchable;
  }

  /** Then it checks the guard of the parent, if there still is one. */
  lemma CheckAbove(w: World, t: Tid, op: Op, past: set<Option<Bytes>>, k: Walk) returns (w': World, n: nat, k': Walk)
    requires HasRead(w, t, op, past, k)
    ensures Led(w, w', t, n) && HasRead(w', t, op, past, k') && k' == k.(parent := None)
  {
    hide Good, Live, Decide, WellFormed, Lookup;
    k' := k.(parent := None);
    if k.parent.None? {
      w', n := w, 0;
      SameMoved(w, t);
    } else {
      var g := k.parent.value;
      WalkSane(w, t, op, past, k);
      ValidPasses(w, g);
      hide Valid, Free, CheckPasses, Guarded, CanGuard, StateOf, VersionOf;
      var th := Busy(op, past, Walking(k'));
      w', n := w.(threads := w.threads[t := th], locks := w.locks[g.pid := Guarded(w.locks[g.pid])]), 1;
      assert Goes(w, w', t, CheckParent);
      StepCan(w, w', t, CheckParent);
      MoveGuarded(w, w', t, th, g.pid);
      MovedFree(w, w', t, k.cur);
    }
  }

  lemma SameMoved(w: World, t: Tid)
    requires t in w.threads
    ensures OnlyMoved(w, w, t)
  {
    hide StateOf, VersionOf;
    assert w.threads == w.threads[t := w.threads[t]];
  }

  /** And its own. */
  lemma CheckHere(w: World, t: Tid, op: Op, past: set<Option<Bytes>>, k: Walk) returns (w': World, k': Walk)
    requires HasRead(w, t, op, past, k) && k.parent.None?
    ensures Led(w, w', t, 1) && HasRead(w', t, op, past, k') && k' == k.(checked := true)
  {
    hide Good, Live, Decide, WellFormed, Lookup;
    k' := k.(checked := true);
    var g := k.cur;
    WalkSane(w, t, op, past, k);
    ValidPasses(w, g);
    hide Valid, Free, CheckPasses, Guarded, CanGuard, StateOf, VersionOf;
    var th := Busy(op, past, Walking(k'));
    w' := w.(threads := w.threads[t := th], locks := w.locks[g.pid := Guarded(w.locks[g.pid])]);
    assert Goes(w, w', t, CheckCur);
    StepCan(w, w', t, CheckCur);
    MoveGuarded(w, w', t, th, g.pid);
    MovedFree(w, w', t, k.cur);
  }

  lemma FollowGoes(w: World, w': World, t: Tid, op: Op, past: set<Option<Bytes>>, k: Walk, k': Walk)
    requires t in w.threads && w.threads[t] == Busy(op, past, Walking(k)) && k.parent.None? && k.checked
    requires k.look.Seen? && k.look.d.Down? && k.look.d.child in w.locks && CanGuard(w.locks[k.look.d.child])
    requires var l := Guarded(w.locks[k.look.d.child]);
      && k' == Walk(k.trip, Some(k.cur), k.look.d.pos, Guard(k.look.d.child, l.word), Blank, false, None)
      && MovesLock(w, w', t, Busy(op, past, Walking(k')), k.look.d.child, l)
    ensures Goes(w, w', t, Follow)
  {
    hide CanGuard, Guarded;
  }

  /** Where an inner node leads. */
  lemma DownFacts(w: World, p: Pid, key: Bytes)
    requires Good(w) && Live(w.tree, p, key) && w.tree.level[p] > 0
    ensures p in w.tree.pages && WellFormed(w.tree.pages[p]) && Decide(w.tree.pages[p], key).Down?
    ensures var c := Decide(w.tree.pages[p], key).child;
      c in w.locks && Live(w.tree, c, key) && w.tree.level[c] + 1 == w.tree.level[p]
  {
    hide LocksOk, OpenOk, ThreadsOk, Tiled, Apart, Chained, Within, Represents, TreeSteps.Sized, Sorted;
    RouteFits(w.tree, p, key);
    LevelLocked(w);
  }

  lemma LeafDecides(w: World, p: Pid, key: Bytes)
    requires Good(w) && Live(w.tree, p, key) && w.tree.level[p] == 0
    ensures p in w.tree.pages && WellFormed(w.tree.pages[p]) && Decide(w.tree.pages[p], key).Here?
    ensures Decide(w.tree.pages[p], key).answer == Lookup(w.m, key)
  {
    hide LocksOk, MemOk, OpenOk, ThreadsOk, Tiled, Apart, Chained, Within, TreeSteps.Sized, Get, Lookup;
  }

  /** It reads the page and checks both guards. */
  lemma ReadAndCheck(w: World, t: Tid, op: Op, past: set<Option<Bytes>>, k: Walk) returns (w': World, n: nat, k': Walk)
    requires HasRead(w, t, op, past, k)
    ensures Led(w, w', t, n) && HasRead(w', t, op, past, k') && k' == k.(parent := None, checked := true)
  {
    hide *;
    var u, n1, k1 := CheckAbove(w, t, op, past, k);
    w', k' := CheckHere(u, t, op, past, k1);
    n := n1 + 1;
    LedThen(w, u, w', t, n1, 1);
  }

  /** It goes down one level. */
  lemma GoDown(w: World, t: Tid, op: Op, past: set<Option<Bytes>>, k: Walk) returns (w': World, n: nat, k': Walk)
    requires Arrives(w, t, op, past, k) && k.cur.pid in w.tree.level && w.tree.level[k.cur.pid] > 0
    ensures Led(w, w', t, n) && Arrives(w', t, op, past, k') && k'.trip == k.trip && k'.parent == Some(k.cur)
    ensures k'.cur.pid in w.tree.level && w.tree.level[k'.cur.pid] + 1 == w.tree.level[k.cur.pid]
  {
    hide *;
    var u, k1 := ReadPage(w, t, op, past, k);
    LedSame(w, u, t, 2);
    var v, n2, k2 := ReadAndCheck(u, t, op, past, k1);
    LedSame(u, v, t, n2);
    w', k' := GoFollow(v, t, op, past, k2);
    n := 2 + n2 + 1;
    LedThen(w, u, v, t, 2, n2);
    LedThen(w, v, w', t, 2 + n2, 1);
  }

  lemma GoFollow(w: World, t: Tid, op: Op, past: set<Option<Bytes>>, k: Walk) returns (w': World, k': Walk)
    requires HasRead(w, t, op, past, k) && k.parent.None? && k.checked
    requires k.cur.pid in w.tree.level && w.tree.level[k.cur.pid] > 0
    ensures Led(w, w', t, 1) && Arrives(w', t, op, past, k') && k'.trip == k.trip && k'.parent == Some(k.cur)
    ensures k'.cur.pid in w.tree.level && w.tree.level[k'.cur.pid] + 1 == w.tree.level[k.cur.pid]
  {
    FollowFacts(w, t, op, past, k);
    hide *;
    var c := k.look.d.child;
    var l := Guarded(w.locks[c]);
    k' := Walk(k.trip, Some(k.cur), k.look.d.pos, Guard(c, l.word), Blank, false, None);
    var th := Busy(op, past, Walking(k'));
    w' := w.(threads := w.threads[t := th], locks := w.locks[c := l]);
    LockMoves(w, t, th, c, l);
    FollowGoes(w, w', t, op, past, k, k');
    StepCan(w, w', t, Follow);
    MoveGuarded(w, w', t, th, c);
    FollowArrives(w, w', t, op, past, k, k');
  }

  lemma LockMoves(w: World, t: Tid, th: Thread, p: Pid, l: Lock)
    ensures MovesLock(w, w.(threads := w.threads[t := th], locks := w.locks[p := l]), t, th, p, l)
  {
  }

  lemma FollowFacts(w: World, t: Tid, op: Op, past: set<Option<Bytes>>, k: Walk)
    requires HasRead(w, t, op, past, k) && k.cur.pid in w.tree.level && w.tree.level[k.cur.pid] > 0
    ensures Good(w) && t in w.threads && w.threads[t] == Busy(op, past, Walking(k)) && k.look.Seen? && k.look.d.Down?
    ensures var c := k.look.d.child;
      && c in w.locks && CanGuard(w.locks[c]) && c in w.tree.level && w.tree.level[c] + 1 == w.tree.level[k.cur.pid]
  {
    DownFacts(w, k.cur.pid, k.trip.route);
    FreeGuard(w, k.look.d.child);
    hide Good, Live, Valid, Decide, WellFormed;
  }

  lemma FollowArrives(w: World, w': World, t: Tid, op: Op, past: set<Option<Bytes>>, k: Walk, k': Walk)
    requires HasRead(w, t, op, past, k) && k.cur.pid in w.tree.level && w.tree.level[k.cur.pid] > 0
    requires k.look.Seen? && k.look.d.Down? && k.look.d.child in w.locks
    requires k' == Walk(k.trip, Some(k.cur), k.look.d.pos, Guard(k.look.d.child, Guarded(w.locks[k.look.d.child]).word),
                        Blank, false, None)
    requires Good(w') && OnlyMoved(w, w', t) && w'.threads[t] == Busy(op, past, Walking(k'))
    ensures Arrives(w', t, op, past, k')
  {
    DownFacts(w, k.cur.pid, k.trip.route);
    FreeGuard(w, k.look.d.child);
    MovedFree(w, w', t, k.cur);
    MovedFree(w, w', t, k'.cur);
    hide Good, Live, Valid, Decide, WellFormed, Guarded, SameLocks, CanGuard, Free;
  }

  /** And so on to a page of the level, which it reads. */
  lemma {:induction false} GoToLevel(w: World, t: Tid, op: Op, past: set<Option<Bytes>>, k: Walk, level: nat)
    returns (w': World, n: nat, k': Walk)
    requires Arrives(w, t, op, past, k) && k.cur.pid in w.tree.level && level < w.tree.level[k.cur.pid]
    ensures Led(w, w', t, n) && HasRead(w', t, op, past, k') && k'.trip == k.trip && k'.parent.Some? && !k'.checked
    ensures k'.cur.pid in w.tree.level && w.tree.level[k'.cur.pid] == level
    decreases w.tree.level[k.cur.pid]
  {
    hide *;
    var u, n1, k1 := GoDown(w, t, op, past, k);
    LedSame(w, u, t, n1);
    NotChecked(u, t, op, past, k1);
    var n2: nat;
    if level < u.tree.level[k1.cur.pid] {
      w', n2, k' := GoToLevel(u, t, op, past, k1, level);
    } else {
      w', k' := ReadPage(u, t, op, past, k1);
      n2 := 2;
    }
    n := n1 + n2;
    LedThen(w, u, w', t, n1, n2);
  }

  lemma NotChecked(w: World, t: Tid, op: Op, past: set<Option<Bytes>>, k: Walk)
    requires Arrives(w, t, op, past, k)
    ensures !k.checked
  {
  }

  // ----- a whole call -----

  /** The world in which the thread has called. */
  function Called(w: World, t: Tid, op: Op): World {
    w.(threads := w.threads[t := Busy(op, {Lookup(w.m, op.key)}, Starting(Anew(op)))])
  }

  lemma CallGoes(w: World, t: Tid, op: Op)
    requires Good(w) && t in w.threads && w.threads[t].Idle? && Legal(op)
    ensures Next(w, Called(w, t, op), t, Call(op)) && !Spoils(w, t, Call(op)) && Good(Called(w, t, op))
    ensures OnlyMoved(w, Called(w, t, op), t)
  {
    hide Good, Legal, Lookup;
    CallGood(w, Called(w, t, op), t, op);
    MoveOnly(w, Called(w, t, op), t, Busy(op, {Lookup(w.m, op.key)}, Starting(Anew(op))));
  }

  lemma EnterGoes(w: World, t: Tid, op: Op, past: set<Option<Bytes>>, trip: Trip) returns (w': World, k: Walk)
    requires Good(w) && Free(w) && t in w.threads && w.threads[t] == Busy(op, past, Starting(trip))
    ensures Led(w, w', t, 1) && Arrives(w', t, op, past, k) && k.cur.pid == META && k.trip == trip
    ensures META in w.tree.level
  {
    hide *;
    MetaLocked(w);
    FreeAt(w, META);
    FreeGuard(w, META);
    var l := Guarded(w.locks[META]);
    k := Walk(trip, None, 0, Guard(META, l.word), Blank, false, None);
    var th := Busy(op, past, Walking(k));
    w' := w.(threads := w.threads[t := th], locks := w.locks[META := l]);
    EnterStep(w, t, op, past, trip);
    StepCan(w, w', t, Enter);
    LockMoves(w, t, th, META, l);
    MoveGuarded(w, w', t, th, META);
    MovedFree(w, w', t, k.cur);
    MetaLive(w', trip.route);
    FreeValid(w, w', t, th, META);
    NowLed(w, w', t, 1);
    NowArrives(w', t, op, past, k);
  }

  lemma FreeAt(w: World, p: Pid)
    requires Free(w) && p in w.locks
    ensures w.locks[p].x.None? && StateOf(w.locks[p].word) != EVICTED
  {
    hide StateOf;
  }

  lemma NowLed(w: World, w': World, t: Tid, n: nat)
    requires Can(w, w', t, n) && OnlyMoved(w, w', t)
    ensures Led(w, w', t, n)
  {
    hide Can, OnlyMoved;
  }

  lemma NowArrives(w: World, t: Tid, op: Op, past: set<Option<Bytes>>, k: Walk)
    requires Good(w) && Free(w) && t in w.threads && w.threads[t] == Busy(op, past, Walking(k))
    requires Valid(w, k.cur) && k.parent.None? && Live(w.tree, k.cur.pid, k.trip.route) && k.look.Blank? && !k.checked
    ensures Arrives(w, t, op, past, k)
  {
    hide Good, Free, Valid, Live;
  }

  lemma FreeValid(w: World, w': World, t: Tid, th: Thread, p: Pid)
    requires p in w.locks && Valid(w, Guard(p, Guarded(w.locks[p]).word))
        && MovesLock(w, w', t, th, p, Guarded(w.locks[p]))
    requires OnlyMoved(w, w', t)
    ensures Valid(w', Guard(p, Guarded(w.locks[p]).word))
  {
    hide Guarded, StateOf, VersionOf;
  }

  lemma EnterStep(w: World, t: Tid, op: Op, past: set<Option<Bytes>>, trip: Trip)
    requires t in w.threads && w.threads[t] == Busy(op, past, Starting(trip))
    requires META in w.locks && CanGuard(w.locks[META])
    ensures var l := Guarded(w.locks[META]);
      var th := Busy(op, past, Walking(Walk(trip, None, 0, Guard(META, l.word), Blank, false, None)));
      Goes(w, w.(threads := w.threads[t := th], locks := w.locks[META := l]), t, Enter)
  {
    hide CanGuard, Guarded;
  }

  lemma MetaLocked(w: World)
    requires Good(w)
    ensures META in w.locks && META in w.tree.level
  {
    LevelLocked(w);
    hide LocksOk, MemOk, OpenOk, ThreadsOk, Tiled, Apart, Chained, TreeSteps.Sized, Represents;
  }

  lemma MetaAbove(w: World)
    requires Good(w)
    ensures META in w.tree.level && w.tree.level[META] > 0
  {
    hide LocksOk, MemOk, OpenOk, ThreadsOk, Tiled, Apart, Chained, TreeSteps.Sized, Represents;
  }

  /** From its call the thread comes to the leaf of its key. */
  lemma CallToLeaf(w: World, t: Tid, op: Op) returns (w': World, n: nat, k: Walk)
    requires Good(w) && Free(w) && t in w.threads && w.threads[t].Idle? && Legal(op)
    ensures Led(Called(w, t, op), w', t, n) && HasRead(w', t, op, {Lookup(w.m, op.key)}, k) && k.trip == Anew(op)
    ensures k.cur.pid in w.tree.level && w.tree.level[k.cur.pid] == 0 && k.parent.Some?
  {
    hide *;
    var past := {Lookup(w.m, op.key)};
    var u := Called(w, t, op);
    CallGoes(w, t, op);
    CalledFacts(w, t, op);
    var v, k0 := EnterGoes(u, t, op, past, Anew(op));
    LedSame(u, v, t, 1);
    var n2: nat;
    MetaAbove(u);
    w', n2, k := GoToLevel(v, t, op, past, k0, 0);
    n := 1 + n2;
    LedThen(u, v, w', t, 1, n2);
    LedSame(u, w', t, n);
  }

  lemma CalledFacts(w: World, t: Tid, op: Op)
    ensures var u := Called(w, t, op);
      && t in u.threads && u.threads[t] == Busy(op, {Lookup(w.m, op.key)}, Starting(Anew(op)))
      && u.tree == w.tree && u.m == w.m && (Free(w) ==> Free(u))
  {
    hide Lookup, StateOf;
  }

  /** A lookup, and any update or removal of an absent key, checks what it has read and returns. */
  lemma LeafReturns(w: World, t: Tid, op: Op, past: set<Option<Bytes>>, k: Walk) returns (w': World, n: nat)
    requires HasRead(w, t, op, past, k) && k.trip == Anew(op) && k.cur.pid in w.tree.level
        && w.tree.level[k.cur.pid] == 0
    requires op.goal.Find? || (!op.goal.Put? && Lookup(w.m, op.key).None?)
    ensures Led(w, w', t, n) && t in w'.threads && w'.threads[t] == Busy(op, past, Finished(Lookup(w.m, op.key)))
    ensures Good(w') && Free(w')
  {
    hide *;
    var u, n1, k1 := ReadAndCheck(w, t, op, past, k);
    LedSame(w, u, t, n1);
    w' := ReturnNow(u, t, op, past, k1);
    n := n1 + 1;
    LedThen(w, u, w', t, n1, 1);
  }

  lemma ReturnNow(w: World, t: Tid, op: Op, past: set<Option<Bytes>>, k: Walk) returns (w': World)
    requires HasRead(w, t, op, past, k) && k.trip == Anew(op) && k.cur.pid in w.tree.level
        && w.tree.level[k.cur.pid] == 0
    requires k.parent.None? && k.checked && (op.goal.Find? || (!op.goal.Put? && Lookup(w.m, op.key).None?))
    ensures Led(w, w', t, 1) && t in w'.threads && w'.threads[t] == Busy(op, past, Finished(Lookup(w.m, op.key)))
    ensures Good(w') && Free(w')
  {
    ReadLeaf(w, t, op, past, k);
    hide *;
    var th := Busy(op, past, Finished(k.look.d.answer));
    w' := w.(threads := w.threads[t := th]);
    ReturnGoes(w, t, op, past, k);
    StepCan(w, w', t, Return);
    OnlyMoves(w, t, th);
    MovedFree(w, w', t, k.cur);
  }

  lemma OnlyMoves(w: World, t: Tid, th: Thread)
    ensures OnlyMoved(w, w.(threads := w.threads[t := th]), t)
  {
    hide StateOf, VersionOf;
  }

  lemma ReadLeaf(w: World, t: Tid, op: Op, past: set<Option<Bytes>>, k: Walk)
    requires HasRead(w, t, op, past, k) && k.trip == Anew(op) && k.cur.pid in w.tree.level
        && w.tree.level[k.cur.pid] == 0
    ensures Good(w) && Free(w) && t in w.threads && w.threads[t] == Busy(op, past, Walking(k)) && k.trip == Anew(op)
    ensures k.look.Seen? && k.look.d.Here? && k.look.d.answer == Lookup(w.m, op.key)
  {
    LeafDecides(w, k.cur.pid, op.key);
    hide Good, Free, Live, Valid, Decide, WellFormed, Lookup;
  }

  lemma ReturnGoes(w: World, t: Tid, op: Op, past: set<Option<Bytes>>, k: Walk)
    requires t in w.threads && w.threads[t] == Busy(op, past, Walking(k)) && k.trip.target.None? && k.parent.None?
        && k.checked
    requires k.look.Seen? && k.look.d.Here? && (op.goal.Find? || (!op.goal.Put? && k.look.d.answer.None?))
    ensures Goes(w, w.(threads := w.threads[t := Busy(op, past, Finished(k.look.d.answer))]), t, Return)
  {
  }

  // ----- changing the leaf -----

  /** All other pages are free, and the version of this one has room for the release. */
  ghost predicate Lone(w: World, c: Pid) {
    && (forall p | p in w.locks && p != c :: w.locks[p].x.None? && StateOf(w.locks[p].word) != EVICTED)
    && c in w.locks && VersionOf(w.locks[c].word) + 1 < TOP
  }

  /** The thread holds the leaf; the guard of the parent is still good, and the version has room for the release. */
  ghost predicate OwnsLeaf(w: World, t: Tid, op: Op, past: set<Option<Bytes>>, k: Leaf) {
    && Good(w) && t in w.threads && w.threads[t] == Busy(op, past, OnLeaf(k)) && Lone(w, k.c)
    && (k.parent.Some? ==> Valid(w, k.parent.value) && k.parent.value.pid != k.c)
  }

  /** The page can be locked now, and unlocked afterwards. */
  ghost predicate Lockable(w: World, p: Pid) {
    && p in w.locks && (StateOf(w.locks[p].word) == UNLOCKED || StateOf(w.locks[p].word) == MARKED)
    && VersionOf(w.locks[p].word) + 1 < TOP
  }

  lemma ValidUpgrades(w: World, g: Guard)
    requires Valid(w, g) && w.locks[g.pid].x.None?
    requires StateOf(w.locks[g.pid].word) == UNLOCKED || StateOf(w.locks[g.pid].word) == MARKED
    ensures CanUpgrade(g, w.locks[g.pid])
  {
    var a, b := w.locks[g.pid].word, g.word;
    assert VersionOf(a) == VersionOf(b) by { hide VersionOf, StateOf; }
    assert ShiftLeft(a, 256) % 256 == 0 && ShiftLeft(b, 256) % 256 == 0;
  }

  lemma LeafLocks(w: World, w': World, t: Tid, op: Op, past: set<Option<Bytes>>, k: Walk, leaf: Leaf)
    requires t in w.threads && w.threads[t] == Busy(op, past, Walking(k)) && k.trip.target.None? && !op.goal.Find?
    requires k.look.Seen? && k.look.d.Here? && k.cur.pid in w.locks && CanUpgrade(k.cur, w.locks[k.cur.pid])
    requires if op.goal.Put? then Need(op, k.trip) <= k.look.d.room else k.look.d.answer.Some?
    requires leaf == Leaf(k.parent, k.cur.pid, k.look.d.slot, k.look.d.answer, k.look.d.room, false)
    requires Enabled(LockX, t, w.locks[k.cur.pid])
    requires MovesLock(w, w', t, Busy(op, past, OnLeaf(leaf)), k.cur.pid, Apply(LockX, t, w.locks[k.cur.pid]))
    ensures Goes(w, w', t, LockLeaf)
  {
    hide CanUpgrade, Apply, Enabled;
  }

  /** What a leaf must say for the operation to change it. */
  ghost predicate MayChange(w: World, p: Pid, op: Op) {
    && p in w.tree.pages && |w.tree.pages[p].keys| == |w.tree.pages[p].pays|
    && match op.goal
       case Find => false
       case Put(v) => op.key !in w.m && HasSpaceFor(w.tree.pages[p], |op.key|, |v|)
       case _ => op.key in w.m
  }

  lemma LockTheLeaf(w: World, t: Tid, op: Op, past: set<Option<Bytes>>, k: Walk) returns (w': World, leaf: Leaf)
    requires HasRead(w, t, op, past, k) && k.trip == Anew(op) && k.cur.pid in w.tree.level
        && w.tree.level[k.cur.pid] == 0
    requires Lockable(w, k.cur.pid) && MayChange(w, k.cur.pid, op)
    ensures Can(w, w', t, 1) && w'.tree == w.tree && w'.m == w.m && w'.open == w.open && OwnsLeaf(w', t, op, past, leaf)
    ensures w'.threads == w.threads[t := w'.threads[t]] && MayChange(w', leaf.c, op)
  {
    var p := k.cur.pid;
    ReadLeaf(w, t, op, past, k);
    LeafUpgrades(w, t, op, past, k);
    hide *;
    leaf := Leaf(k.parent, p, k.look.d.slot, k.look.d.answer, k.look.d.room, false);
    var th, l := Busy(op, past, OnLeaf(leaf)), Apply(LockX, t, w.locks[p]);
    w' := w.(threads := w.threads[t := th], locks := w.locks[p := l]);
    LockMoves(w, t, th, p, l);
    AnewFree(op);
    LeafLocks(w, w', t, op, past, k, leaf);
    StepCan(w, w', t, LockLeaf);
    LeafOwned(w, w', t, op, past, k, leaf);
    SameChange(w, w', p, op);
  }

  lemma AnewFree(op: Op)
    ensures Anew(op).target.None?
  {
  }

  lemma LeafUpgrades(w: World, t: Tid, op: Op, past: set<Option<Bytes>>, k: Walk)
    requires HasRead(w, t, op, past, k) && k.trip == Anew(op) && k.cur.pid in w.tree.level
        && w.tree.level[k.cur.pid] == 0
    requires Lockable(w, k.cur.pid) && MayChange(w, k.cur.pid, op)
    ensures k.cur.pid in w.locks && CanUpgrade(k.cur, w.locks[k.cur.pid]) && Enabled(LockX, t, w.locks[k.cur.pid])
    ensures !op.goal.Find? && k.look.Seen? && k.look.d.Here?
    ensures if op.goal.Put? then Need(op, k.trip) <= k.look.d.room else k.look.d.answer.Some?
  {
    LeafDecides(w, k.cur.pid, op.key);
    ValidUpgrades(w, k.cur) by { hide Good, Live, Decide, WellFormed, StateOf, VersionOf, MayChange; }
    LeafRoom(w, k.cur.pid, op);
    hide Good, Live, Decide, WellFormed, Lookup, CanUpgrade, Capacity, HasSpaceFor, StateOf, VersionOf;
  }

  lemma LeafOwned(w: World, w': World, t: Tid, op: Op, past: set<Option<Bytes>>, k: Walk, leaf: Leaf)
    requires HasRead(w, t, op, past, k) && Lockable(w, k.cur.pid) && Good(w') && Enabled(LockX, t, w.locks[k.cur.pid])
    requires leaf.parent == k.parent && leaf.c == k.cur.pid
    requires MovesLock(w, w', t, Busy(op, past, OnLeaf(leaf)), k.cur.pid, Apply(LockX, t, w.locks[k.cur.pid]))
    ensures OwnsLeaf(w', t, op, past, leaf)
  {
    hide *;
    WalkKnows(w, t, op, past, k);
    var th := Busy(op, past, OnLeaf(leaf));
    LockedFacts(w, w', t, th, k.cur.pid);
    if k.parent.Some? {
      ParentApart(w, t, op, past, k);
      LockedElsewhere(w, w', k.parent.value, k.cur.pid);
    }
    NowOwnsLeaf(w', t, op, past, leaf);
  }

  lemma NowOwnsLeaf(w: World, t: Tid, op: Op, past: set<Option<Bytes>>, k: Leaf)
    requires Good(w) && t in w.threads && w.threads[t] == Busy(op, past, OnLeaf(k)) && Lone(w, k.c)
    requires k.parent.Some? ==> Valid(w, k.parent.value) && k.parent.value.pid != k.c
    ensures OwnsLeaf(w, t, op, past, k)
  {
    hide Good, Lone, Valid;
  }

  lemma WalkKnows(w: World, t: Tid, op: Op, past: set<Option<Bytes>>, k: Walk)
    requires HasRead(w, t, op, past, k)
    ensures Walks(w, t, op, past, k) && Free(w) && (k.parent.Some? ==> Valid(w, k.parent.value))
  {
    hide Good, Free, Valid, Live, Decide, WellFormed;
  }

  lemma LockedFacts(w: World, w': World, t: Tid, th: Thread, p: Pid)
    requires Free(w) && Lockable(w, p) && MovesLock(w, w', t, th, p, Apply(LockX, t, w.locks[p]))
    ensures t in w'.threads && w'.threads[t] == th && p in w.locks && p in w'.locks
    ensures w'.locks == w.locks[p := w'.locks[p]] && Lone(w', p)
  {
    SameVersionUnpacks(w.locks[p].word, LOCKED);
    hide StateOf, VersionOf, SameVersion;
  }

  lemma SameChange(w: World, w': World, p: Pid, op: Op)
    requires MayChange(w, p, op) && w'.tree == w.tree && w'.m == w.m
    ensures MayChange(w', p, op)
  {
    hide HasSpaceFor;
  }

  lemma LockedElsewhere(w: World, w': World, g: Guard, p: Pid)
    requires Valid(w, g) && g.pid != p && p in w.locks && p in w'.locks && w'.locks == w.locks[p := w'.locks[p]]
    ensures Valid(w', g)
  {
    hide VersionOf;
  }

  lemma LeafRoom(w: World, p: Pid, op: Op)
    requires Good(w) && Live(w.tree, p, op.key) && w.tree.level[p] == 0 && MayChange(w, p, op)
    ensures WellFormed(w.tree.pages[p]) && Decide(w.tree.pages[p], op.key).Here?
    ensures var d := Decide(w.tree.pages[p], op.key);
      if op.goal.Put? then Need(op, Anew(op)) <= d.room else d.answer.Some?
  {
    LeafDecides(w, p, op.key);
    hide Good, Live, WellFormed, Get, Size;
  }

  lemma ParentApart(w: World, t: Tid, op: Op, past: set<Option<Bytes>>, k: Walk)
    requires Walks(w, t, op, past, k) && k.parent.Some?
    ensures k.parent.value.pid != k.cur.pid
  {
    hide Live, Sane, Free, Tells, Legal, Lookup;
    StateOfBusy(w, t, op, past, Walking(k)) by { hide Good, Valid, Hangs; }
    HangsApart(w, k.parent.value.pid, k.trip.route, k.pos, k.cur.pid) by { hide Good, Valid, Hangs; }
  }

  lemma HangsApart(w: World, p: Pid, key: Bytes, pos: nat, c: Pid)
    requires Good(w) && Hangs(w.tree, p, key, pos, c)
    ensures p != c
  {
    hide LocksOk, MemOk, OpenOk, ThreadsOk, Tiled, Apart, Chained, Within, Represents, TreeSteps.Sized, Sorted, Less;
    RouteFits(w.tree, p, key);
  }

  /** It checks the guard of the parent. */
  lemma CheckHeldParent(w: World, t: Tid, op: Op, past: set<Option<Bytes>>, k: Leaf) returns (w': World, n: nat,
      k': Leaf)
    requires OwnsLeaf(w, t, op, past, k) && MayChange(w, k.c, op)
    ensures Can(w, w', t, n) && w'.tree == w.tree && w'.m == w.m && w'.open == w.open && OwnsLeaf(w', t, op, past, k')
    ensures w'.threads == w.threads[t := w'.threads[t]] && MayChange(w', k'.c, op) && k'.parent.None?
  {
    hide Good, Can, MayChange;
    k' := k.(parent := None);
    if k.parent.None? {
      w', n := w, 0;
      assert w.threads == w.threads[t := w.threads[t]];
      CanStay(w, t);
    } else {
      var g := k.parent.value;
      LeafSane(w, t, op, past, k);
      ValidPasses(w, g);
      hide Valid, CheckPasses, CanGuard;
      var th, l := Busy(op, past, OnLeaf(k')), Guarded(w.locks[g.pid]);
      w', n := w.(threads := w.threads[t := th], locks := w.locks[g.pid := l]), 1;
      HeldGoes(w, w', t, op, past, k);
      StepCan(w, w', t, CheckParentHeld);
      hide Goes;
      MoveGuarded(w, w', t, th, g.pid);
      hide Guarded, StateOf, VersionOf;
      SameChange(w, w', k.c, op);
    }
  }

  lemma CanStay(w: World, t: Tid)
    ensures Can(w, w, t, 0)
  {
  }

  lemma LeafSane(w: World, t: Tid, op: Op, past: set<Option<Bytes>>, k: Leaf)
    requires Good(w) && t in w.threads && w.threads[t] == Busy(op, past, OnLeaf(k)) && k.parent.Some?
    ensures Sane(w, k.parent.value)
  {
    hide Good, Sane, Valid, LeafFacts, Legal, Lookup;
    StateOfBusy(w, t, op, past, OnLeaf(k));
  }

  lemma HeldGoes(w: World, w': World, t: Tid, op: Op, past: set<Option<Bytes>>, k: Leaf)
    requires t in w.threads && w.threads[t] == Busy(op, past, OnLeaf(k)) && k.parent.Some?
    requires var g := k.parent.value;
      && g.pid in w.locks && CheckPasses(g.word, w.locks[g.pid].word)
      && MovesLock(w, w', t, Busy(op, past, OnLeaf(k.(parent := None))), g.pid, Guarded(w.locks[g.pid]))
    ensures Goes(w, w', t, CheckParentHeld)
  {
    hide CheckPasses, Guarded;
  }

  /** The world after a finished change. */
  function Committed(w: World, t: Tid, at: Stage, tree: Tree, m: map<Bytes, Bytes>): World
    requires t in w.threads && w.threads[t].Busy? && Held(w.threads[t]) <= tree.pages.Keys
  {
    var th := w.threads[t];
    var held := Held(th);
    w.(tree := tree, m := m, open := w.open - held,
       mem := map p | p in w.mem :: if p in held then tree.pages[p] else w.mem[p],
       threads := TouchAll(w.threads, held, m)[t := Busy(th.op, th.past + {Lookup(m, th.op.key)}, at)])
  }

  lemma MapEffect(w: World, op: Op)
    requires !op.goal.Find? && (if op.goal.Put? then op.key !in w.m else op.key in w.m)
    ensures forall w': World | w'.m == MapAfter(w.m, op) :: Effect(w, w', op, Lookup(w.m, op.key))
  {
  }

  lemma OthersTouched(w: World, written: set<Pid>, m: map<Bytes, Bytes>)
    ensures TouchAll(w.threads, written, m).Keys == w.threads.Keys
    ensures forall u | u in w.threads && !w.threads[u].Busy? :: TouchAll(w.threads, written, m)[u] == w.threads[u]
  {
  }

  /** What the holder of the leaf knows, and that it may change it. */
  ghost predicate Ready(w: World, t: Tid, op: Op, past: set<Option<Bytes>>, k: Leaf) {
    && t in w.threads && w.threads[t] == Busy(op, past, OnLeaf(k)) && k.parent.None? && !op.goal.Find?
    && Shaped(w.tree) && IsLeaf(w.tree, k.c) && k.c in w.tree.pages && WellFormed(w.tree.pages[k.c])
    && |w.tree.pages[k.c].keys| == |w.tree.pages[k.c].pays| && k.answer == Lookup(w.m, op.key)
    && if op.goal.Put? then op.key !in w.m && HasSpaceFor(w.tree.pages[k.c], |op.key|, |op.goal.v|)
       else k.slot < |w.tree.pages[k.c].keys| && op.key in w.m && w.tree.pages[k.c].pays[k.slot] == w.m[op.key]
  }

  lemma LeafReady(w: World, t: Tid, op: Op, past: set<Option<Bytes>>, k: Leaf)
    requires OwnsLeaf(w, t, op, past, k) && MayChange(w, k.c, op) && k.parent.None?
    ensures Good(w) && Ready(w, t, op, past, k)
  {
    LeafKnown(w, t, op, past, k);
    LeafSlot(w, t, op, past, k);
    LeafChanged(w, t, op, past, k);
    hide Good, Sound, Represents, WellFormed, HasSpaceFor, Get, Slot, Within, TreeSteps.Sized, LeafAfter, MapAfter, Lookup,
         Store, Capacity, Live, Legal, IsLeaf, StateOf, VersionOf;
  }

  /** The world in which the leaf is changed, but still held. */
  function AfterLeaf(w: World, t: Tid, op: Op, past: set<Option<Bytes>>, k: Leaf): World
    requires Ready(w, t, op, past, k)
  {
    hide Shaped, IsLeaf, WellFormed, HasSpaceFor, Lookup;
    Committed(w, t, Unwinding(Back({k.c}, Anew(op), Some(k.answer))),
              Store(w.tree, k.c, LeafAfter(w.tree.pages[k.c], op, k.slot)), MapAfter(w.m, op))
  }

  lemma ChangeGoes(w: World, t: Tid, op: Op, past: set<Option<Bytes>>, k: Leaf)
    requires Ready(w, t, op, past, k)
    ensures Goes(w, AfterLeaf(w, t, op, past, k), t, CommitLeaf)
  {
    hide Shaped, IsLeaf, WellFormed, HasSpaceFor, TouchAll, Lookup;
  }

  /** Thread `t` has done `op` at the leaf `c`, which it still holds. */
  ghost predicate Changed(w: World, w': World, t: Tid, op: Op, c: Pid) {
    && Effect(w, w', op, Lookup(w.m, op.key)) && w'.locks == w.locks && w'.open == w.open - {c}
    && t in w'.threads && w'.threads[t].Busy? && w'.threads[t].op == op
    && w'.threads[t].at == Unwinding(Back({c}, Anew(op), Some(Lookup(w.m, op.key))))
    && OthersRest(w, w', t)
  }

  /** The other threads are still outside the tree. */
  ghost predicate OthersRest(w: World, w': World, t: Tid) {
    && w'.threads.Keys == w.threads.Keys
    && forall u | u in w.threads && u != t && !w.threads[u].Busy? :: w'.threads[u] == w.threads[u]
  }

  lemma AfterLeafFacts(w: World, t: Tid, op: Op, past: set<Option<Bytes>>, k: Leaf)
    requires Ready(w, t, op, past, k)
    ensures Changed(w, AfterLeaf(w, t, op, past, k), t, op, k.c)
  {
    MapEffect(w, op);
    OthersTouched(w, {k.c}, MapAfter(w.m, op));
    hide Shaped, IsLeaf, WellFormed, HasSpaceFor, TouchAll, Lookup, LeafAfter, MapAfter;
  }

  /** The leaf is changed. */
  lemma ChangeLeaf(w: World, t: Tid, op: Op, past: set<Option<Bytes>>, k: Leaf) returns (w': World)
    requires OwnsLeaf(w, t, op, past, k) && MayChange(w, k.c, op) && k.parent.None?
    ensures Can(w, w', t, 1) && Good(w') && Changed(w, w', t, op, k.c)
  {
    hide *;
    LeafReady(w, t, op, past, k);
    w' := AfterLeaf(w, t, op, past, k);
    ChangeGoes(w, t, op, past, k);
    AfterLeafFacts(w, t, op, past, k);
    StepCan(w, w', t, CommitLeaf);
  }

  /** The page is released. */
  lemma DropLeaf(w: World, t: Tid, op: Op, past: set<Option<Bytes>>, c: Pid, answer: Option<Bytes>) returns (w': World)
    requires Good(w) && Lone(w, c) && c in w.locks && t in w.threads
    requires w.threads[t] == Busy(op, past, Unwinding(Back({c}, Anew(op), Some(answer))))
    ensures Can(w, w', t, 1) && Good(w') && Free(w') && w'.m == w.m && w'.open == w.open
    ensures w'.threads == w.threads[t := Busy(op, past, Unwinding(Back({}, Anew(op), Some(answer))))]
  {
    OwnsBack(w, t, op, past, c, answer);
    UnlockFacts(w, t, c);
    hide *;
    var th, l := Busy(op, past, Unwinding(Back({}, Anew(op), Some(answer)))), Apply(Action.UnlockX, t, w.locks[c]);
    w' := w.(threads := w.threads[t := th], locks := w.locks[c := l]);
    UnlockGoes(w, t, op, past, c, answer);
    StepCan(w, w', t, Event.Unlock(c));
    FreedOnly(w, w', c);
  }

  /** And the call returns. */
  lemma CallReturns(w: World, t: Tid, op: Op, past: set<Option<Bytes>>, answer: Option<Bytes>) returns (w': World)
    requires Good(w) && Free(w) && t in w.threads
    requires w.threads[t] == Busy(op, past, Unwinding(Back({}, Anew(op), Some(answer))))
    ensures Can(w, w', t, 1) && Good(w') && Free(w') && w'.m == w.m && w'.open == w.open
    ensures w'.threads == w.threads[t := Busy(op, past, Finished(answer))]
  {
    hide *;
    w' := w.(threads := w.threads[t := Busy(op, past, Finished(answer))]);
    FinishGoes(w, t, op, past, answer);
    StepCan(w, w', t, Finish);
    FreeStays(w, w');
  }

  lemma FreeStays(w: World, w': World)
    requires Free(w) && w'.locks == w.locks
    ensures Free(w')
  {
    hide StateOf;
  }

  lemma FreedOnly(w: World, w': World, c: Pid)
    requires Lone(w, c) && c in w'.locks && w'.locks == w.locks[c := w'.locks[c]]
    requires w'.locks[c].x.None? && StateOf(w'.locks[c].word) != EVICTED
    ensures Free(w')
  {
    hide StateOf, VersionOf;
  }

  lemma UnlockFacts(w: World, t: Tid, c: Pid)
    requires Good(w) && Owns(w, t, c) && Lone(w, c)
    ensures Enabled(Action.UnlockX, t, w.locks[c])
    ensures var l := Apply(Action.UnlockX, t, w.locks[c]); l.x.None? && StateOf(l.word) == UNLOCKED
  {
    NextVersionUnpacks(w.locks[c].word, UNLOCKED);
    hide Good, StateOf, VersionOf, NextVersion;
  }

  lemma UnlockGoes(w: World, t: Tid, op: Op, past: set<Option<Bytes>>, c: Pid, answer: Option<Bytes>)
    requires t in w.threads && w.threads[t] == Busy(op, past, Unwinding(Back({c}, Anew(op), Some(answer))))
        && c in w.locks
    requires Enabled(Action.UnlockX, t, w.locks[c]) && Lone(w, c)
    ensures var th := Busy(op, past, Unwinding(Back({}, Anew(op), Some(answer))));
      Goes(w, w.(threads := w.threads[t := th], locks := w.locks[c := Apply(Action.UnlockX, t, w.locks[c])]), t,
          Event.Unlock(c))
  {
    hide Enabled, Apply, VersionOf;
    assert {c} - {c} == {};
  }

  lemma FinishGoes(w: World, t: Tid, op: Op, past: set<Option<Bytes>>, answer: Option<Bytes>)
    requires t in w.threads && w.threads[t] == Busy(op, past, Unwinding(Back({}, Anew(op), Some(answer))))
    ensures Goes(w, w.(threads := w.threads[t := Busy(op, past, Finished(answer))]), t, Finish)
  {
  }

  lemma OwnsBack(w: World, t: Tid, op: Op, past: set<Option<Bytes>>, c: Pid, answer: Option<Bytes>)
    requires Good(w) && t in w.threads && w.threads[t] == Busy(op, past, Unwinding(Back({c}, Anew(op), Some(answer))))
    ensures Owns(w, t, c)
  {
    hide Good, Owns, Legal, Lookup;
    StateOfBusy(w, t, op, past, Unwinding(Back({c}, Anew(op), Some(answer))));
    assert c in Held(Busy(op, past, Unwinding(Back({c}, Anew(op), Some(answer)))));
  }

  // ----- from rest to rest -----

  /** Thread `t` alone calls `op`, which returns `answer`; before and afterwards nobody is inside the tree. */
  ghost predicate Served(ws: seq<World>, ts: seq<Tid>, es: seq<Event>, t: Tid, op: Op, answer: Option<Bytes>) {
    && IsRun(ws, ts, es) && |ts| > 1 && (forall i | 0 <= i < |ts| :: ts[i] == t) && Careful(ws, ts, es, |ts|)
    && es[0] == Call(op) && es[|ts| - 1] == Retire && (forall i | 0 < i < |ts| - 1 :: !es[i].Call? && !es[i].Retire?)
    && t in ws[|ts| - 1].threads && ws[|ts| - 1].threads[t].Busy? && ws[|ts| - 1].threads[t].at == Finished(answer)
    && AtRest(ws[|ts|]) && Free(ws[|ts|])
  }

  lemma {:induction false} Unroll(w: World, w': World, t: Tid, n: nat) returns (ws: seq<World>, es: seq<Event>)
    requires Can(w, w', t, n)
    ensures |ws| == n + 1 && |es| == n && ws[0] == w && ws[n] == w'
    ensures forall i | 0 <= i < n :: Goes(ws[i], ws[i + 1], t, es[i])
    decreases n
  {
    hide Goes;
    if n == 0 {
      ws, es := [w], [];
    } else {
      var u, e :| Goes(w, u, t, e) && Can(u, w', t, n - 1);
      var ws', es' := Unroll(u, w', t, n - 1);
      ws, es := [w] + ws', [e] + es';
    }
  }

  /** A step as careful runs have them. */
  ghost predicate Fair(w: World, w': World, t: Tid, e: Event) {
    Next(w, w', t, e) && (e.Call? ==> Legal(e.op)) && !Spoils(w, t, e)
  }

  /** The world in which thread `t` is idle again. */
  function Retired(w: World, t: Tid): World {
    w.(threads := w.threads[t := Idle])
  }

  lemma RetireRests(w: World, v: World, t: Tid, op: Op, past: set<Option<Bytes>>, answer: Option<Bytes>)
    requires AtRest(w) && OthersRest(w, v, t) && Good(v) && Free(v) && v.open == {}
    requires t in v.threads && v.threads[t] == Busy(op, past, Finished(answer))
    ensures Fair(v, Retired(v, t), t, Retire) && AtRest(Retired(v, t)) && Free(Retired(v, t))
  {
    hide TreeOk, LocksOk, ThreadsOk, StateOf;
    TreeStays(v, Retired(v, t));
    assert v.mem == v.tree.pages;
  }

  lemma TreeStays(v: World, v': World)
    requires v' == v.(threads := v'.threads)
    ensures TreeOk(v) ==> TreeOk(v')
    ensures LocksOk(v) ==> LocksOk(v')
  {
    hide Sound, Represents, TreeSteps.Sized, PageLocks.Inv;
  }

  lemma GoesFair(w: World, w': World, t: Tid, e: Event)
    requires Goes(w, w', t, e)
    ensures Fair(w, w', t, e) && !e.Call? && !e.Retire?
  {
    hide Next, Legal, Spoils;
  }

  lemma CallFair(w: World, t: Tid, op: Op)
    requires Good(w) && t in w.threads && w.threads[t].Idle? && Legal(op)
    ensures Fair(w, Called(w, t, op), t, Call(op))
  {
    CallGoes(w, t, op);
    hide Next, Legal, Spoils, Good;
  }

  lemma FairRun(ws: seq<World>, ts: seq<Tid>, es: seq<Event>, t: Tid)
    requires |ws| == |ts| + 1 == |es| + 1 && AtRest(ws[0]) && forall i | 0 <= i < |ts| :: ts[i] == t
    requires forall i | 0 <= i < |ts| :: Fair(ws[i], ws[i + 1], t, es[i])
    ensures IsRun(ws, ts, es) && Careful(ws, ts, es, |ts|)
  {
    hide Next, Legal, Spoils, AtRest;
    forall i | 0 <= i < |ts|
      ensures Next(ws[i], ws[i + 1], ts[i], es[i]) && (es[i].Call? ==> Legal(es[i].op)) && !Spoils(ws[i], ts[i], es[i])
    {
      assert Fair(ws[i], ws[i + 1], t, es[i]);
    }
  }

  /** The steps inside the call, with the call before and the end of it behind, are a run from rest to rest. */
  lemma Wrap(w: World, v: World, t: Tid, op: Op, past: set<Option<Bytes>>, answer: Option<Bytes>, n: nat)
    returns (ws: seq<World>, ts: seq<Tid>, es: seq<Event>)
    requires AtRest(w) && t in w.threads && w.threads[t].Idle? && Legal(op)
    requires Can(Called(w, t, op), v, t, n) && OthersRest(w, v, t) && Good(v) && Free(v) && v.open == {}
    requires t in v.threads && v.threads[t] == Busy(op, past, Finished(answer))
    ensures Served(ws, ts, es, t, op, answer) && ws[0] == w && ws[|ts|] == Retired(v, t)
  {
    RestGood(w) by { hide *; }
    RetireRests(w, v, t, op, past, answer) by { hide *; }
    hide Good, Free, AtRest, Next, Spoils, Legal, Called, Retired, OthersRest, Can, OnlyMoved, Fair, Goes, IsRun, Careful;
    var mid, events := Unroll(Called(w, t, op), v, t, n);
    CallFair(w, t, op);
    ws, es := [w] + mid + [Retired(v, t)], [Call(op)] + events + [Retire];
    ts := seq(n + 2, i => t);
    forall i | 0 <= i < n + 2
      ensures Fair(ws[i], ws[i + 1], t, es[i]) && (0 < i < n + 1 ==> !es[i].Call? && !es[i].Retire?)
    {
      if 0 < i < n + 1 { GoesFair(mid[i - 1], mid[i], t, events[i - 1]); }
    }
    FairRun(ws, ts, es, t);
  }

  lemma MovedRest(w: World, w': World, t: Tid)
    requires OnlyMoved(w, w', t) || (t in w'.threads && w'.threads == w.threads[t := w'.threads[t]])
    requires t in w.threads
    ensures OthersRest(w, w', t)
  {
    hide SameLocks;
  }

  lemma RestTwice(a: World, b: World, c: World, t: Tid)
    requires OthersRest(a, b, t) && OthersRest(b, c, t)
    ensures OthersRest(a, c, t)
  {
  }

  lemma CalledRest(w: World, t: Tid, op: Op)
    requires t in w.threads
    ensures OthersRest(w, Called(w, t, op), t) && t in Called(w, t, op).threads && Called(w, t, op).open == w.open
    ensures OnlyMoved(w, Called(w, t, op), t)
  {
    MoveOnly(w, Called(w, t, op), t, Busy(op, {Lookup(w.m, op.key)}, Starting(Anew(op))));
    hide Lookup, OnlyMoved;
  }

  lemma LedRest(w: World, w': World, t: Tid, n: nat)
    requires Led(w, w', t, n) && t in w.threads
    ensures Can(w, w', t, n) && OnlyMoved(w, w', t) && OthersRest(w, w', t) && w'.open == w.open && t in w'.threads
  {
    hide Can, SameLocks;
  }

  /** From every world at rest, every lookup has a run of its own that returns what the map says for the key; and so
      has every update and removal of a key that is not there. Nothing changes. */
  lemma AnswerAlone(w: World, t: Tid, op: Op) returns (ws: seq<World>, ts: seq<Tid>, es: seq<Event>)
    requires AtRest(w) && Free(w) && t in w.threads && w.threads[t].Idle? && Legal(op)
    requires op.goal.Find? || (!op.goal.Put? && op.key !in w.m)
    ensures Served(ws, ts, es, t, op, Lookup(w.m, op.key)) && ws[0] == w
    ensures ws[|ts|].tree == w.tree && ws[|ts|].mem == w.mem && ws[|ts|].m == w.m
  {
    hide *;
    RestGood(w);
    RestOpen(w);
    CalledRest(w, t, op);
    CalledFacts(w, t, op);
    var u := Called(w, t, op);
    var v1, n1, k := CallToLeaf(w, t, op);
    LedSame(u, v1, t, n1);
    AbsentSays(w.m, op.key);
    var v, n2 := LeafReturns(v1, t, op, {Lookup(w.m, op.key)}, k);
    LedThen(u, v1, v, t, n1, n2);
    LedSame(u, v, t, n1 + n2);
    LedRest(u, v, t, n1 + n2);
    RestTwice(w, u, v, t);
    ws, ts, es := Wrap(w, v, t, op, {Lookup(w.m, op.key)}, Lookup(w.m, op.key), n1 + n2);
    RetiredSame(v, t);
    MemStays(w, t, op);
  }

  lemma MemStays(w: World, t: Tid, op: Op)
    ensures Called(w, t, op).mem == w.mem
  {
  }

  lemma RestOpen(w: World)
    requires AtRest(w)
    ensures w.open == {}
  {
    hide TreeOk, LocksOk;
  }

  lemma RetiredSame(v: World, t: Tid)
    ensures Retired(v, t).tree == v.tree && Retired(v, t).mem == v.mem && Retired(v, t).m == v.m
  {
  }

  lemma AbsentSays(m: map<Bytes, Bytes>, key: Bytes)
    ensures Lookup(m, key).None? <==> key !in m
  {
  }

  /** The leaf that the walk has come to is the one of the key. */
  lemma SameLeaf(w: World, w': World, t: Tid, op: Op, past: set<Option<Bytes>>, k: Walk, c: Pid)
    requires HasRead(w', t, op, past, k) && k.trip == Anew(op) && k.cur.pid in w'.tree.level
        && w'.tree.level[k.cur.pid] == 0
    requires OnlyMoved(w, w', t) && Live(w.tree, c, op.key) && w.tree.level[c] == 0 && Lockable(w, c)
        && MayChange(w, c, op)
    ensures k.cur.pid == c && Lockable(w', c) && MayChange(w', c, op)
  {
    hide HasSpaceFor, Decide, WellFormed, Lookup, Valid, Free, StateOf, VersionOf;
    OneLeaf(w', k.cur.pid, c, op.key) by { hide Good, Live, Lockable, MayChange; }
    hide Good, Live;
  }

  lemma OneLeaf(w: World, p: Pid, q: Pid, key: Bytes)
    requires Good(w) && Live(w.tree, p, key) && Live(w.tree, q, key) && w.tree.level[p] == w.tree.level[q]
    ensures p == q
  {
    hide LocksOk, MemOk, OpenOk, ThreadsOk, Represents, TreeSteps.Sized, Sound, Within;
    CoverUnique(w.tree, p, q, key);
  }

  /** The changed leaf is released, and the call returns. */
  lemma LetGo(w: World, t: Tid, op: Op, past: set<Option<Bytes>>, c: Pid, answer: Option<Bytes>) returns (w': World)
    requires Good(w) && Lone(w, c) && c in w.locks && t in w.threads
    requires w.threads[t] == Busy(op, past, Unwinding(Back({c}, Anew(op), Some(answer))))
    ensures Can(w, w', t, 2) && Good(w') && Free(w') && w'.m == w.m && w'.open == w.open && OthersRest(w, w', t)
    ensures t in w'.threads && w'.threads[t] == Busy(op, past, Finished(answer))
  {
    hide *;
    var u := DropLeaf(w, t, op, past, c, answer);
    w' := CallReturns(u, t, op, past, answer);
    CanThen(w, u, w', t, 1, 1);
    MovedRest(w, u, t);
    MovedRest(u, w', t);
    RestTwice(w, u, w', t);
  }

  lemma ChangedTold(w: World, w': World, t: Tid, op: Op, c: Pid)
    requires Changed(w, w', t, op, c) && w.open == {}
    ensures Effect(w, w', op, Lookup(w.m, op.key)) && w'.open == {} && OthersRest(w, w', t)
    ensures t in w'.threads && w'.threads[t].Busy?
    ensures w'.threads[t] == Busy(op, w'.threads[t].past, Unwinding(Back({c}, Anew(op), Some(Lookup(w.m, op.key)))))
    ensures Lone(w, c) ==> Lone(w', c)
  {
    hide Effect, Lookup, OthersRest, StateOf, VersionOf;
  }

  lemma OwnsLone(w: World, t: Tid, op: Op, past: set<Option<Bytes>>, k: Leaf)
    requires OwnsLeaf(w, t, op, past, k)
    ensures Lone(w, k.c) && k.c in w.locks && Good(w) && t in w.threads
  {
    hide Good, StateOf, VersionOf;
  }

  lemma SameEffect(a: World, b: World, a': World, b': World, op: Op, answer: Option<Bytes>)
    requires Effect(a, b, op, answer) && a'.m == a.m && b'.m == b.m
    ensures Effect(a', b', op, answer)
  {
    hide Lookup;
  }

  /** From the leaf that has been read, locked, changed and released, to the end of the call. */
  lemma ChangeAndReturn(w: World, t: Tid, op: Op, past: set<Option<Bytes>>, k: Walk)
    returns (w': World, n: nat, past': set<Option<Bytes>>)
    requires HasRead(w, t, op, past, k) && k.trip == Anew(op) && k.cur.pid in w.tree.level
        && w.tree.level[k.cur.pid] == 0
    requires Lockable(w, k.cur.pid) && MayChange(w, k.cur.pid, op) && w.open == {} && t in w.threads
    ensures Can(w, w', t, n) && Good(w') && Free(w') && w'.open == {} && OthersRest(w, w', t)
    ensures t in w'.threads && w'.threads[t] == Busy(op, past', Finished(Lookup(w.m, op.key)))
    ensures Effect(w, w', op, Lookup(w.m, op.key))
  {
    hide *;
    var b, leaf1 := LockTheLeaf(w, t, op, past, k);
    OwnsLone(b, t, op, past, leaf1);
    MovedRest(w, b, t);
    var d, n2, leaf := CheckHeldParent(b, t, op, past, leaf1);
    OwnsLone(d, t, op, past, leaf);
    MovedRest(b, d, t);
    RestTwice(w, b, d, t);
    var e := ChangeLeaf(d, t, op, past, leaf);
    ChangedTold(d, e, t, op, leaf.c);
    RestTwice(w, d, e, t);
    OwnsLone(d, t, op, past, leaf);
    past' := e.threads[t].past;
    LoneLocked(e, leaf.c);
    w' := LetGo(e, t, op, past', leaf.c, Lookup(d.m, op.key));
    RestTwice(w, e, w', t);
    CanThen(w, b, d, t, 1, n2);
    CanThen(w, d, e, t, 1 + n2, 1);
    CanThen(w, e, w', t, 1 + n2 + 1, 2);
    n := 1 + n2 + 1 + 2;
    SameEffect(d, e, w, w', op, Lookup(w.m, op.key));
  }

  lemma LoneLocked(w: World, c: Pid)
    requires Lone(w, c)
    ensures c in w.locks
  {
    hide StateOf, VersionOf;
  }

  /** And every update and removal of a key that is there, and every insert of a new key that the leaf has room for,
      has a run of its own that does it: it returns what the key stood for, and the map is as it must be. Only the page
      of the key must not be held by readers, nor its version be the last one. */
  lemma ChangeAlone(w: World, t: Tid, op: Op, c: Pid) returns (ws: seq<World>, ts: seq<Tid>, es: seq<Event>)
    requires AtRest(w) && Free(w) && t in w.threads && w.threads[t].Idle? && Legal(op)
    requires Live(w.tree, c, op.key) && w.tree.level[c] == 0 && Lockable(w, c) && MayChange(w, c, op)
    ensures Served(ws, ts, es, t, op, Lookup(w.m, op.key)) && ws[0] == w
    ensures Effect(w, ws[|ts|], op, Lookup(w.m, op.key))
  {
    hide *;
    RestGood(w);
    RestOpen(w);
    CalledRest(w, t, op);
    CalledFacts(w, t, op);
    var past, answer, u := {Lookup(w.m, op.key)}, Lookup(w.m, op.key), Called(w, t, op);
    var v1, n1, k := CallToLeaf(w, t, op);
    LedSame(u, v1, t, n1);
    LedRest(u, v1, t, n1);
    MovedTwice(w, u, v1, t);
    SameLeaf(w, v1, t, op, past, k, c);
    var v, n2, past' := ChangeAndReturn(v1, t, op, past, k);
    CanThen(u, v1, v, t, n1, n2);
    RestTwice(w, u, v1, t);
    RestTwice(w, v1, v, t);
    ws, ts, es := Wrap(w, v, t, op, past', answer, n1 + n2);
    RetiredSame(v, t);
    SameEffect(v1, v, w, Retired(v, t), op, answer);
  }

  // ----- what threads may do to each other -----

  /** The holder of a leaf may write anything to it before it has finished, and every read of the page that is under way
      is torn by that. */
  lemma MayWrite(w: World, t: Tid, op: Op, past: set<Option<Bytes>>, k: Leaf, n: Node) returns (w': World)
    requires Good(w) && t in w.threads && w.threads[t] == Busy(op, past, OnLeaf(k)) && k.parent.None?
    ensures Next(w, w', t, Write(k.c, n)) && Good(w') && w'.mem == w.mem[k.c := n] && w'.tree == w.tree && w'.m == w.m
    ensures forall u | u in w.threads && u != t && ReadsNow(w.threads[u], k.c) :: u in w'.threads && Torn(w'.threads[u])
  {
    hide *;
    OwnsLeafPage(w, t, op, past, k);
    var th := Busy(op, past, OnLeaf(k.(wrote := true)));
    w' := w.(mem := w.mem[k.c := n], open := w.open + {k.c}, threads := TouchAll(w.threads, {k.c}, w.m)[t := th]);
    WriteStep(w, w', t, op, past, k, n);
    NextGood(w, w', t, Write(k.c, n));
    TornBy(w, w', t, k.c, th);
  }

  ghost predicate ReadsNow(th: Thread, p: Pid) {
    th.Busy? && th.at.Walking? && th.at.walk.look.Reading? && th.at.walk.cur.pid == p
  }

  ghost predicate Torn(th: Thread) {
    th.Busy? && th.at.Walking? && th.at.walk.look == Reading(true)
  }

  lemma OwnsLeafPage(w: World, t: Tid, op: Op, past: set<Option<Bytes>>, k: Leaf)
    requires Good(w) && t in w.threads && w.threads[t] == Busy(op, past, OnLeaf(k))
    ensures k.c in w.mem
  {
    StateOfBusy(w, t, op, past, OnLeaf(k)) by { hide *; }
    assert k.c in Held(Busy(op, past, OnLeaf(k)));
    hide TreeOk, LocksOk, OpenOk, ThreadsOk, StageOk, Legal, Lookup;
  }

  lemma WriteStep(w: World, w': World, t: Tid, op: Op, past: set<Option<Bytes>>, k: Leaf, n: Node)
    requires t in w.threads && w.threads[t] == Busy(op, past, OnLeaf(k)) && k.parent.None? && k.c in w.mem
    requires w' == w.(mem := w.mem[k.c := n], open := w.open + {k.c},
                      threads := TouchAll(w.threads, {k.c}, w.m)[t := Busy(op, past, OnLeaf(k.(wrote := true)))])
    ensures Next(w, w', t, Write(k.c, n)) && !Spoils(w, t, Write(k.c, n))
  {
    hide TouchAll;
  }

  lemma TornBy(w: World, w': World, t: Tid, p: Pid, th: Thread)
    requires w'.threads == TouchAll(w.threads, {p}, w.m)[t := th]
    ensures forall u | u in w.threads && u != t && ReadsNow(w.threads[u], p) :: u in w'.threads && Torn(w'.threads[u])
  {
    hide Lookup;
  }

  /** A torn read may yield anything. */
  lemma MayMisread(w: World, t: Tid, op: Op, past: set<Option<Bytes>>, k: Walk, d: Decision)
    requires t in w.threads && w.threads[t] == Busy(op, past, Walking(k)) && k.look == Reading(true)
        && k.cur.pid in w.mem
    ensures Next(w, w.(threads := w.threads[t := Busy(op, past, Walking(k.(look := Seen(d))))]), t, EndRead(d))
  {
    hide WellFormed, Searchable, Decide;
  }

  /** A walk may start over at any time. */
  lemma MayRestart(w: World, t: Tid, op: Op, past: set<Option<Bytes>>, k: Walk)
    requires t in w.threads && w.threads[t] == Busy(op, past, Walking(k))
    ensures Next(w, w.(threads := w.threads[t := Busy(op, past, Starting(k.trip))]), t, Restart)
    ensures Next(w, w.(threads := w.threads[t := Busy(op, past, Starting(Anew(op)))]), t, Restart)
  {
  }

  /** Scans, eviction and fault handling may take any lock step that the page admits. */
  lemma MayInterfere(w: World, t: Tid, p: Pid, a: Action)
    requires t in w.threads && w.threads[t].Agent? && p in w.locks && Enabled(a, t, w.locks[p])
    requires Releases(a) ==> VersionOf(w.locks[p].word) + 1 < TOP
    ensures Next(w, w.(threads := w.threads[t := Agent], locks := w.locks[p := Apply(a, t, w.locks[p])]), t,
        LockAction(p, a))
  {
    hide Enabled, Apply, VersionOf, Releases;
  }
}
