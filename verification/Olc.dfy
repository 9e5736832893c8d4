/** Optimistic lock coupling over the tree, as a transition system of atomic steps of any number of
    threads. `mem` is what the pages hold, `tree` what the last finished change made of them: the two
    differ only while a writer is inside a page it holds exclusively. */
module Olc {
  import opened Keys
  import opened Nodes
  import opened PageLocks
  import opened Reads
  import opened Spaces
  import opened Trees

  /** A page id with the lock word read when the guard was made. */
  datatype Guard = Guard(pid: Pid, word: Word)

  /** What reading one node yields: go down to a child, or (in a leaf) the slot and the answer; and the most
      bytes of key and payload that a new entry may have. */
  datatype Decision = Down(pos: nat, child: Pid, room: int) | Here(slot: nat, answer: Option<Bytes>, room: int)

  /** A read of a page takes time: it begins, somebody may write to the page, it ends. */
  datatype Look = Blank | Reading(torn: bool) | Seen(d: Decision)

  /** `Set` applies a function to the payload in place. */
  datatype Goal = Find | Put(v: Bytes) | Set(f: Bytes -> Bytes) | Del

  datatype Op = Op(goal: Goal, key: Bytes)

  /** Which key to descend by, and which page `ensureSpace` wants to split on the way (if any). */
  datatype Trip = Trip(route: Bytes, target: Option<Pid>)

  /** `more` is whether the parent has an entry behind `pos`, once that has been read. */
  datatype Walk = Walk(trip: Trip, parent: Option<Guard>, pos: nat, cur: Guard, look: Look, checked: bool,
      more: Option<bool>)
  datatype Leaf = Leaf(parent: Option<Guard>, c: Pid, slot: nat, answer: Option<Bytes>, room: int, wrote: bool)
  datatype Top = Top(trip: Trip, p: Pid, pos: nat, cur: Guard, look: Look, more: bool)
  datatype Pair = Pair(trip: Trip, p: Pid, pos: nat, c: Pid, decision: Decision, more: bool,
                       right: Option<Pid>, spare: Option<Pid>, extra: set<Pid>, wrote: bool, gone: bool)
  datatype Back = Back(held: set<Pid>, trip: Trip, result: Option<Option<Bytes>>)

  /** Where a thread is in `lookup`, `updateInPlace`, `insert`, `remove` or `ensureSpace`. */
  datatype Stage =
    | Starting(trip: Trip)
    | Walking(walk: Walk)      // optimistic descent
    | OnLeaf(leaf: Leaf)       // the leaf is locked
    | OnParent(top: Top)       // the parent is locked, the child not yet
    | OnPair(pair: Pair)       // parent and child are locked
    | Unwinding(back: Back)    // releasing pages
    | Finished(answer: Option<Bytes>)

  /** `past` collects what the map said for the key at every moment since the call. */
  datatype Thread =
    | Agent   // scans with shared locks, the evictor, fault handling: lock steps only
    | Idle
    | Busy(op: Op, past: set<Option<Bytes>>, at: Stage)

  datatype World = World(locks: map<Pid, Lock>, mem: map<Pid, Node>, tree: Tree, m: map<Bytes, Bytes>,
                         open: set<Pid>, threads: map<Tid, Thread>, crashed: bool)

  /** The most bytes of key and payload that still fit. */
  function Capacity(n: Node): int
    requires |n.keys| == |n.pays|
  {
    Room(n) + Prefix(n) - SLOT
  }

  function Decide(n: Node, k: Bytes): Decision
    requires WellFormed(n)
  {
    if n.leaf then Here(Slot(n, k), Get(n, k), Capacity(n)) else Down(Slot(n, k), Route(n, k), Capacity(n))
  }

  /** Bytes of key and payload that the page is to have room for. */
  function Need(op: Op, trip: Trip): int
    requires op.goal.Put?
  {
    if trip.target.Some? then |trip.route| + 8 else |op.key| + |op.goal.v|
  }

  /** What the code asks of its callers: an insert has a key, not too long to be found again, and a legal size; an
      update leaves the length of the payload alone. */
  ghost predicate Legal(op: Op) {
    match op.goal
    case Put(v) => op.key != [] && |op.key| <= SHORT && |op.key| + |v| <= MAX_KV
    case Set(f) => forall v :: |f(v)| == |v|
    case _ => true
  }

  /** Nodes that `findSeparator` may be called for. */
  predicate Cuttable(n: Node) {
    WellFormed(n) && |n.keys| > 1
  }

  function Opt(p: Option<Pid>): set<Pid> {
    if p.Some? then {p.value} else {}
  }

  function PairPages(k: Pair): set<Pid> {
    {k.p, k.c} + Opt(k.right) + Opt(k.spare) + k.extra
  }

  /** The pages a thread holds exclusively for its tree operation. */
  function Held(th: Thread): set<Pid> {
    if !th.Busy? then {}
    else match th.at
      case OnLeaf(k) => {k.c}
      case OnParent(k) => {k.p}
      case OnPair(k) => PairPages(k)
      case Unwinding(k) => k.held
      case _ => {}
  }

  /** It has begun to change a page it holds. */
  ghost predicate Wrote(th: Thread) {
    th.Busy? && ((th.at.OnLeaf? && th.at.leaf.wrote) || (th.at.OnPair? && th.at.pair.wrote))
  }

  /** What a step of somebody else does to a thread: the map may say something new for its key, and a
      read in progress is torn when its page was written. */
  function Touch(th: Thread, written: set<Pid>, m: map<Bytes, Bytes>): Thread {
    if !th.Busy? then th
    else Busy(th.op, th.past + {Lookup(m, th.op.key)},
              if th.at.Walking? && th.at.walk.look.Reading? && th.at.walk.cur.pid in written
              then Walking(th.at.walk.(look := Reading(true))) else th.at)
  }

  function TouchAll(threads: map<Tid, Thread>, written: set<Pid>, m: map<Bytes, Bytes>): map<Tid, Thread> {
    map u | u in threads :: Touch(threads[u], written, m)
  }

  // ----- steps -----

  datatype Event =
    | LockAction(p: Pid, a: Action) | Call(op: Op) | Retire
    | Enter | BeginRead | EndRead(d: Decision) | ReadParent(more: bool) | CheckCur | CheckParent | Follow | Return | Restart
    | LockLeaf | CheckParentHeld | LockParent | LockChild | LockRight | Alloc(r: Pid, n: Node)
    | Write(p: Pid, n: Node)
    | CommitLeaf | CommitRoot | CommitSplit(ordered: bool) | CommitDel | CommitMerge
    | GiveUp(ordered: bool) | Leave | Unlock(p: Pid) | Finish

  /** `GuardO::init` gets through: the page is not locked or evicted; a mark is cleared. */
  ghost predicate CanGuard(l: Lock) {
    StateOf(l.word) <= MAX_SHARED || StateOf(l.word) == MARKED
  }

  function Guarded(l: Lock): Lock {
    if StateOf(l.word) == MARKED then l.(word := SameVersion(l.word, UNLOCKED)) else l
  }

  /** The upgrade of an optimistic guard to an exclusive one: same version, and free to lock. */
  ghost predicate CanUpgrade(g: Guard, l: Lock) {
    ShiftLeft(l.word, 256) == ShiftLeft(g.word, 256) && (StateOf(l.word) == UNLOCKED || StateOf(l.word) == MARKED)
  }

  ghost predicate Moves(w: World, w': World, t: Tid, th: Thread) {
    w' == w.(threads := w.threads[t := th])
  }

  /** A step that also replaces the lock of `p`. */
  ghost predicate MovesLock(w: World, w': World, t: Tid, th: Thread, p: Pid, l: Lock) {
    w' == w.(threads := w.threads[t := th], locks := w.locks[p := l])
  }

  /** A check of guard `g`: on success the thread goes on as `yes`, otherwise as `no`. */
  ghost predicate Checks(w: World, w': World, t: Tid, g: Guard, yes: Thread, no: Thread) {
    g.pid in w.locks
    && if CheckPasses(g.word, w.locks[g.pid].word) then MovesLock(w, w', t, yes, g.pid, Guarded(w.locks[g.pid]))
       else Moves(w, w', t, no)
  }

  ghost predicate TakesX(w: World, w': World, t: Tid, th: Thread, p: Pid) {
    p in w.locks && Enabled(LockX, t, w.locks[p]) && MovesLock(w, w', t, th, p, Apply(LockX, t, w.locks[p]))
  }

  ghost predicate DropsX(w: World, w': World, t: Tid, th: Thread, p: Pid) {
    p in w.locks && Enabled(UnlockX, t, w.locks[p]) && VersionOf(w.locks[p].word) + 1 < TOP
    && MovesLock(w, w', t, th, p, Apply(UnlockX, t, w.locks[p]))
  }

  /** A finished change: the pages held by `t` now hold what the tree says, and the map moves to `m`. */
  ghost predicate Commits(w: World, w': World, t: Tid, at: Stage, tree: Tree, m: map<Bytes, Bytes>)
    requires t in w.threads
  {
    var th := w.threads[t];
    var held := Held(th);
    && th.Busy? && held <= tree.pages.Keys
    && w' == w.(tree := tree, m := m, open := w.open - held,
                mem := map p | p in w.mem :: if p in held then tree.pages[p] else w.mem[p],
                threads := TouchAll(w.threads, held, m)[t := Busy(th.op, th.past + {Lookup(m, th.op.key)}, at)])
  }

  /** An assertion of the code fails, it writes where it must not, or it stores a key twice. */
  ghost predicate Crashes(w: World, w': World) {
    w' == w.(crashed := true)
  }

  /** What an update in place makes of the payload. */
  function NewPay(n: Node, slot: nat, f: Bytes -> Bytes): Bytes
    requires slot < |n.pays|
  {
    f(n.pays[slot])
  }

  function Anew(op: Op): Trip {
    Trip(op.key, None)
  }

  ghost predicate WalkStep(w: World, w': World, t: Tid, op: Op, past: set<Option<Bytes>>, k: Walk, e: Event) {
    var again := Busy(op, past, Starting(k.trip));
    match e
    case BeginRead =>
      k.look.Blank? && Moves(w, w', t, Busy(op, past, Walking(k.(look := Reading(false)))))
    case EndRead(d) =>
      && k.look.Reading? && k.cur.pid in w.mem
      && (!k.look.torn && WellFormed(w.mem[k.cur.pid]) && Searchable(w.mem[k.cur.pid], k.trip.route) ==>
          d == Decide(w.mem[k.cur.pid], k.trip.route))
      && Moves(w, w', t, Busy(op, past, Walking(k.(look := Seen(d)))))
    case ReadParent(more) =>
      && k.parent.Some? && k.parent.value.pid in w.mem
      && (k.parent.value.pid !in w.open && WellFormed(w.mem[k.parent.value.pid]) ==>
          more == (k.pos + 1 < |w.mem[k.parent.value.pid].keys|))
      && Moves(w, w', t, Busy(op, past, Walking(k.(more := Some(more)))))
    case CheckCur =>
      && k.look.Seen? && (k.look.d.Down? ==> k.parent.None?)
      && Checks(w, w', t, k.cur, Busy(op, past, Walking(k.(checked := true))), again)
    case CheckParent =>
      k.parent.Some? && Checks(w, w', t, k.parent.value, Busy(op, past, Walking(k.(parent := None))), again)
    case Follow =>
      && k.parent.None? && k.checked && k.look.Seen? && k.look.d.Down?
      && var c := k.look.d.child;
         if c !in w.locks then Crashes(w, w')
         else
           && CanGuard(w.locks[c])
           && var l := Guarded(w.locks[c]);
              MovesLock(w, w', t, Busy(op, past, Walking(Walk(k.trip, Some(k.cur), k.look.d.pos, Guard(c, l.word),
                  Blank, false, None))), c, l)
    case Return =>
      && k.parent.None? && k.trip.target.None? && k.checked && k.look.Seen? && k.look.d.Here?
      && (op.goal.Find? || (!op.goal.Put? && k.look.d.answer.None?))
      && Moves(w, w', t, Busy(op, past, Finished(k.look.d.answer)))
    case Restart =>
      Moves(w, w', t, again) || Moves(w, w', t, Busy(op, past, Starting(Anew(op))))
    case LockLeaf =>
      && k.trip.target.None? && !op.goal.Find? && k.look.Seen? && k.look.d.Here? && k.cur.pid in w.locks
      && (if op.goal.Put? then Need(op, k.trip) <= k.look.d.room else k.look.d.answer.Some?)
      && CanUpgrade(k.cur, w.locks[k.cur.pid])
      && TakesX(w, w', t, Busy(op, past, OnLeaf(Leaf(k.parent, k.cur.pid, k.look.d.slot, k.look.d.answer,
          k.look.d.room, false))),
                k.cur.pid)
    case LockParent =>
      && k.parent.Some? && k.parent.value.pid in w.locks && CanUpgrade(k.parent.value, w.locks[k.parent.value.pid])
      && k.look.Seen?
      && (if op.goal.Put? then
            && Need(op, k.trip) > k.look.d.room
            && (if k.trip.target.Some? then k.cur.pid == k.trip.target.value else k.look.d.Here?)
          else
            && op.goal.Del? && k.look.d.Here? && k.look.d.answer.Some?
            && k.parent.value.pid != META && k.more == Some(true))
      && TakesX(w, w', t, Busy(op, past, OnParent(Top(k.trip, k.parent.value.pid, k.pos, k.cur, k.look, op.goal.Del?))),
                k.parent.value.pid)
    case _ => false
  }

  ghost predicate LeafStep(w: World, w': World, t: Tid, op: Op, past: set<Option<Bytes>>, k: Leaf, e: Event)
    requires t in w.threads
  {
    match e
    case CheckParentHeld =>
      && k.parent.Some?
      && Checks(w, w', t, k.parent.value, Busy(op, past, OnLeaf(k.(parent := None))),
                Busy(op, past, Unwinding(Back({k.c}, Anew(op), None))))
    case Write(p, n) =>
      && k.parent.None? && p == k.c && Writes(w, w', t, Busy(op, past, OnLeaf(k.(wrote := true))), p, n)
    case CommitLeaf =>
      && k.parent.None?
      && if !(Shaped(w.tree) && IsLeaf(w.tree, k.c)) then Crashes(w, w')
         else
           var n := w.tree.pages[k.c];
           var after := Unwinding(Back({k.c}, Anew(op), Some(k.answer)));
           (match op.goal
            case Find => false
            case Put(v) =>
              if op.key in w.m || !HasSpaceFor(n, |op.key|, |v|) then Crashes(w, w')
              else Commits(w, w', t, after, Store(w.tree, k.c, InsertEntry(n, op.key, v)), w.m[op.key := v])
            case Set(f) =>
              if k.slot >= |n.keys| then Crashes(w, w')
              else Commits(w, w', t, after, Store(w.tree, k.c, SetPay(n, k.slot, NewPay(n, k.slot, f))),
                  w.m[op.key := NewPay(n, k.slot, f)])
            case Del =>
              if k.slot >= |n.keys| then Crashes(w, w')
              else Commits(w, w', t, after, Store(w.tree, k.c, RemoveAt(n, k.slot)), w.m - {op.key}))
    case _ => false
  }

  ghost predicate TopStep(w: World, w': World, t: Tid, op: Op, past: set<Option<Bytes>>, k: Top, e: Event) {
    && e.LockChild? && k.cur.pid in w.locks
    && if ShiftLeft(w.locks[k.cur.pid].word, 256) != ShiftLeft(k.cur.word, 256)
       then Moves(w, w', t, Busy(op, past, Unwinding(Back({k.p}, k.trip, None))))
       else
         && CanUpgrade(k.cur, w.locks[k.cur.pid])
         && k.look.Seen?
         && TakesX(w, w', t, Busy(op, past, OnPair(Pair(k.trip, k.p, k.pos, k.cur.pid, k.look.d, k.more,
                                                        None, None, {}, false, false))), k.cur.pid)
  }

  ghost predicate Writes(w: World, w': World, t: Tid, th: Thread, p: Pid, n: Node) {
    && p in w.mem
    && w' == w.(mem := w.mem[p := n], open := w.open + {p}, threads := TouchAll(w.threads, {p}, w.m)[t := th])
  }

  ghost predicate PairStep(w: World, w': World, t: Tid, op: Op, past: set<Option<Bytes>>, k: Pair, e: Event)
    requires t in w.threads
  {
    match e
    case LockRight =>
      && op.goal.Del? && k.trip.target.None? && k.right.None? && k.spare.None? && !k.wrote && !k.gone
      && k.p in w.mem
      && if !(Inner(w.mem[k.p]) && k.pos + 1 < |w.mem[k.p].keys|) then Crashes(w, w')
         else
           var r := Kid(w.mem[k.p], k.pos + 1);
           TakesX(w, w', t, Busy(op, past, OnPair(k.(right := Some(r)))), r)
    case Alloc(r, n) =>
      && op.goal.Put? && k.spare.None? && k.right.None? && r !in w.locks && r != NO_NEIGHBOUR
      && w' == w.(locks := w.locks[r := Apply(LockX, t, Fresh())], mem := w.mem[r := n],
                  tree := w.tree.(pages := w.tree.pages[r := n]), open := w.open + {r},
                  threads := w.threads[t := Busy(op, past, OnPair(k.(spare := Some(r), wrote := true)))])
    case Write(p, n) =>
      p in PairPages(k) && p !in k.extra && Writes(w, w', t, Busy(op, past, OnPair(k.(wrote := true))), p, n)
    case CommitRoot =>
      && k.p == META && k.spare.Some? && k.right.None?
      && if !(Shaped(w.tree) && w.tree.pages[META].link == k.c && k.spare.value !in w.tree.level) then Crashes(w, w')
         else Commits(w, w', t, OnPair(k.(p := k.spare.value, pos := 0, spare := None, extra := k.extra + {META},
             wrote := false)),
                      GrowRoot(w.tree, k.spare.value), w.m)
    case CommitSplit(ordered) =>
      && k.p != META && k.spare.Some? && k.right.None? && k.c in w.tree.pages && k.p in w.tree.pages
      && if !(Cuttable(w.tree.pages[k.c]) && WellFormed(w.tree.pages[k.p])) then Crashes(w, w')
         else
           var slot, sep := FindSeparator(w.tree.pages[k.c], ordered).slot, Separator(w.tree.pages[k.c], ordered);
           && HasSpaceFor(w.tree.pages[k.p], |sep|, 8)
           && if !SlotAllowed(slot) || !CanSplit(w.tree, k.p, k.c, slot, sep, k.spare.value)
                || !Fits(SplitLeft(w.tree.pages[k.c], slot, sep, k.spare.value)) then Crashes(w, w')
              else Commits(w, w', t, Unwinding(Back(PairPages(k), Anew(op), None)),
                           SplitTree(w.tree, k.p, k.c, slot, sep, k.spare.value), w.m)
    case CommitDel =>
      && op.goal.Del? && !k.gone && k.right.Some? && k.decision.Here?
      && var slot := k.decision.slot;
         if !(Shaped(w.tree) && IsLeaf(w.tree, k.c) && slot < |w.tree.pages[k.c].keys|) then Crashes(w, w')
         else Commits(w, w', t, OnPair(k.(gone := true, wrote := false)),
                      Store(w.tree, k.c, RemoveAt(w.tree.pages[k.c], slot)), w.m - {op.key})
    case CommitMerge =>
      && k.gone && k.right.Some? && k.decision.Here?
      && if !(CanMerge(w.tree, k.p, k.pos) && Kid(w.tree.pages[k.p], k.pos) == k.c
              && Kid(w.tree.pages[k.p], k.pos + 1) == k.right.value) then Crashes(w, w')
         else
           && BoundedMerge(w.tree, k.c, k.right.value)
           && Commits(w, w', t, Unwinding(Back(PairPages(k), Anew(op), Some(k.decision.answer))),
                      MergeTree(w.tree, k.p, k.pos), w.m)
    case GiveUp(ordered) =>
      && op.goal.Put? && !k.wrote && k.spare.None? && k.right.None? && k.p != META && k.c in w.mem && k.p in w.mem
      && if !(Cuttable(w.mem[k.c]) && WellFormed(w.mem[k.p])) then Crashes(w, w')
         else
           var sep := Separator(w.mem[k.c], ordered);
           && !HasSpaceFor(w.mem[k.p], |sep|, 8)
           && Moves(w, w', t, Busy(op, past, Unwinding(Back(PairPages(k), Trip(sep, Some(k.p)), None))))
    case Leave =>
      && !k.wrote && k.gone && k.decision.Here?
      && Moves(w, w', t, Busy(op, past, Unwinding(Back(PairPages(k), Anew(op), Some(k.decision.answer)))))
    case Unlock(p) =>
      !k.wrote && p in k.extra && DropsX(w, w', t, Busy(op, past, OnPair(k.(extra := k.extra - {p}))), p)
    case _ => false
  }

  /** The bound on the merged size allows the merge. */
  predicate BoundedMerge(t: Tree, l: Pid, r: Pid) {
    && l in t.pages && r in t.pages && |t.pages[l].keys| == |t.pages[l].pays| && |t.pages[r].keys| == |t.pages[r].pays|
    && SpaceUpperBound(t.pages[l], t.pages[r]) <= PAGE_SIZE
  }

  ghost predicate BackStep(w: World, w': World, t: Tid, op: Op, past: set<Option<Bytes>>, k: Back, e: Event) {
    match e
    case Unlock(p) =>
      p in k.held && DropsX(w, w', t, Busy(op, past, Unwinding(k.(held := k.held - {p}))), p)
    case Finish =>
      && k.held == {}
      && Moves(w, w', t, Busy(op, past, if k.result.Some? then Finished(k.result.value) else Starting(k.trip)))
    case _ => false
  }

  /** Thread `t` takes step `e`. */
  ghost predicate Next(w: World, w': World, t: Tid, e: Event) {
    && t in w.threads
    && match w.threads[t]
       case Agent =>
         && e.LockAction? && e.p in w.locks && Enabled(e.a, t, w.locks[e.p])
         && (Releases(e.a) ==> VersionOf(w.locks[e.p].word) + 1 < TOP)
         && MovesLock(w, w', t, Agent, e.p, Apply(e.a, t, w.locks[e.p]))
       case Idle =>
         e.Call? && Moves(w, w', t, Busy(e.op, {Lookup(w.m, e.op.key)}, Starting(Anew(e.op))))
       case Busy(op, past, at) =>
         match at
         case Starting(trip) =>
           && e.Enter? && META in w.locks && CanGuard(w.locks[META])
           && var l := Guarded(w.locks[META]);
              MovesLock(w, w', t, Busy(op, past, Walking(Walk(trip, None, 0, Guard(META, l.word), Blank, false,
                  None))), META, l)
         case Walking(k) => WalkStep(w, w', t, op, past, k, e)
         case OnLeaf(k) => LeafStep(w, w', t, op, past, k, e)
         case OnParent(k) => TopStep(w, w', t, op, past, k, e)
         case OnPair(k) => PairStep(w, w', t, op, past, k, e)
         case Unwinding(k) => BackStep(w, w', t, op, past, k, e)
         case Finished(_) => e.Retire? && Moves(w, w', t, Idle)
  }

  // ----- steps that do harm -----

  /** The separator is a full key whose rest is longer than the slack that the moved entries leave. */
  predicate LeftOverflows(n: Node, ordered: bool)
    requires Cuttable(n)
  {
    SepInRange(n, ordered);
    var i := FindSeparator(n, ordered);
    n.leaf && !i.truncated && Suffix(n, i.slot) > Slack(n, i.slot, Separator(n, ordered))
  }

  /** The step inserts a key that is there already, or splits a leaf whose left half does not fit its page. */
  ghost predicate Spoils(w: World, t: Tid, e: Event) {
    && t in w.threads && w.threads[t].Busy?
    && var th := w.threads[t];
       || (e.CommitLeaf? && th.at.OnLeaf? && th.op.goal.Put? && th.op.key in w.m)
       || (e.CommitSplit? && th.at.OnPair? && th.at.pair.c in w.tree.pages && Cuttable(w.tree.pages[th.at.pair.c])
           && LeftOverflows(w.tree.pages[th.at.pair.c], e.ordered))
  }
}
