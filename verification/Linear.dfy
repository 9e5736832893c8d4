/** Runs of the tree under any interleaving: exactly when they go wrong, and that as long as they do not,
    every operation takes effect exactly once, at one moment between its call and its return. */
module Linear {
  import opened Keys
  import opened Nodes
  import opened PageLocks
  import opened Reads
  import opened Trees
  import opened Olc
  import opened OlcProofs
  import opened Spaces
  import TreeSteps

  // ----- runs -----

  /** Nobody is inside the tree: no page is locked exclusively, all operations are finished. */
  ghost predicate AtRest(w: World) {
    && TreeOk(w) && LocksOk(w) && w.open == {}
    && w.locks.Keys == w.mem.Keys && w.mem == w.tree.pages
    && (forall p | p in w.locks :: w.locks[p].x.None?)
    && (forall t | t in w.threads :: w.threads[t].Agent? || w.threads[t].Idle?)
  }

  /** `ts[i]` takes step `es[i]` from `ws[i]` to `ws[i + 1]`. */
  ghost predicate IsRun(ws: seq<World>, ts: seq<Tid>, es: seq<Event>) {
    && |ws| == |ts| + 1 == |es| + 1 && AtRest(ws[0])
    && forall i | 0 <= i < |ts| :: Next(ws[i], ws[i + 1], ts[i], es[i])
  }

  /** The world right after the tree has been built, with any number of idle threads. */
  lemma FreshAtRest(root: Pid, idle: set<Tid>)
    requires root != META && root != NO_NEIGHBOUR
    ensures var free := Lock(0, None, multiset{});
      AtRest(World(map[META := free, root := free], Empty(root).pages, Empty(root), map[], {}, map t | t in idle ::
          Idle, false))
  {
    EmptySound(root);
    hide Sound, Represents;
  }

  lemma RestGood(w: World)
    requires AtRest(w)
    ensures Good(w)
  {
    hide TreeOk, PageLocks.Inv;
  }

  /** The first `n` steps of the run only make calls that the code allows, insert no key that is there already, and
      split no leaf whose left half does not fit its page. */
  ghost predicate Careful(ws: seq<World>, ts: seq<Tid>, es: seq<Event>, n: nat)
    requires n <= |ts| == |es| < |ws|
  {
    forall i | 0 <= i < n :: (es[i].Call? ==> Legal(es[i].op)) && !Spoils(ws[i], ts[i], es[i])
  }

  lemma {:induction false} RunGood(ws: seq<World>, ts: seq<Tid>, es: seq<Event>, i: nat)
    requires IsRun(ws, ts, es) && i < |ws| && Careful(ws, ts, es, i)
    ensures Good(ws[i])
  {
    hide Good, AtRest, Next, Spoils, Legal;
    if i == 0 {
      RestGood(ws[0]);
    } else {
      RunGood(ws, ts, es, i - 1);
      NextGood(ws[i - 1], ws[i], ts[i - 1], es[i - 1]);
    }
  }

  /** As long as a run is careful, no assertion of the code has failed, no unknown page been followed, no slot been
      written that is not there and no page overflowed; and the tree stands for the map. */
  lemma NeverCrashes(ws: seq<World>, ts: seq<Tid>, es: seq<Event>, i: nat)
    requires IsRun(ws, ts, es) && i < |ws| && Careful(ws, ts, es, i)
    ensures !ws[i].crashed && Sound(ws[i].tree) && Represents(ws[i].tree, ws[i].m) && TreeSteps.Sized(ws[i].tree)
  {
    RunGood(ws, ts, es, i);
    hide Sound, Represents, LocksOk, MemOk, OpenOk, ThreadsOk, AtRest, Next, Spoils, Legal, TreeSteps.Sized;
  }

  /** Steps never add or remove a thread, and a crash stays one. */
  ghost predicate Frame(w: World, w': World) {
    w'.threads.Keys == w.threads.Keys && (w.crashed ==> w'.crashed)
  }

  lemma TouchAllKeys(threads: map<Tid, Thread>, written: set<Pid>, m: map<Bytes, Bytes>)
    ensures TouchAll(threads, written, m).Keys == threads.Keys
  {
    hide Touch;
  }

  lemma CommitsFrame(w: World, w': World, t: Tid, at: Stage, tree: Tree, m: map<Bytes, Bytes>)
    requires t in w.threads && Commits(w, w', t, at, tree, m)
    ensures Frame(w, w')
  {
    hide Held, TouchAll, Lookup;
    TouchAllKeys(w.threads, Held(w.threads[t]), m);
  }

  lemma WritesFrame(w: World, w': World, t: Tid, th: Thread, p: Pid, n: Node)
    requires t in w.threads && Writes(w, w', t, th, p, n)
    ensures Frame(w, w')
  {
    hide TouchAll;
    TouchAllKeys(w.threads, {p}, w.m);
  }

  lemma WalkFrame(w: World, w': World, t: Tid, op: Op, past: set<Option<Bytes>>, k: Walk, e: Event)
    requires t in w.threads && WalkStep(w, w', t, op, past, k, e)
    ensures Frame(w, w')
  {
    hide CheckPasses, Guarded, CanGuard, CanUpgrade, Enabled, Apply, Decide, WellFormed, Searchable;
  }

  lemma LeafFrame(w: World, w': World, t: Tid, op: Op, past: set<Option<Bytes>>, k: Leaf, e: Event)
    requires t in w.threads && LeafStep(w, w', t, op, past, k, e)
    ensures Frame(w, w')
  {
    hide Commits, Writes, CheckPasses, Guarded, Shaped, Store, InsertEntry, RemoveAt, SetPay, HasSpaceFor;
    forall at, tree, m | Commits(w, w', t, at, tree, m) ensures Frame(w, w') { CommitsFrame(w, w', t, at, tree, m); }
    if e.Write? { WritesFrame(w, w', t, Busy(op, past, OnLeaf(k.(wrote := true))), e.p, e.n); }
  }

  lemma PairFrame(w: World, w': World, t: Tid, op: Op, past: set<Option<Bytes>>, k: Pair, e: Event)
    requires t in w.threads && PairStep(w, w', t, op, past, k, e)
    ensures Frame(w, w')
  {
    hide Commits, Writes, Enabled, Apply, CanSplit, CanMerge, SplitTree, MergeTree, GrowRoot, Shaped, Kid, Inner, Store,
         RemoveAt, PairPages, FindSeparator, Separator, SplitLeft, Fits, HasSpaceFor, Cuttable, WellFormed, BoundedMerge;
    forall at, tree, m | Commits(w, w', t, at, tree, m) ensures Frame(w, w') { CommitsFrame(w, w', t, at, tree, m); }
    if e.Write? { WritesFrame(w, w', t, Busy(op, past, OnPair(k.(wrote := true))), e.p, e.n); }
  }

  lemma StepFrame(w: World, w': World, t: Tid, e: Event)
    requires Next(w, w', t, e)
    ensures Frame(w, w')
  {
    hide WalkStep, LeafStep, PairStep, CanGuard, Guarded, Enabled, Apply, Lookup, CanUpgrade;
    match w.threads[t] {
      case Busy(op, past, at) =>
        match at {
          case Walking(k) => WalkFrame(w, w', t, op, past, k, e);
          case OnLeaf(k) => LeafFrame(w, w', t, op, past, k, e);
          case OnPair(k) => PairFrame(w, w', t, op, past, k, e);
          case _ =>
        }
      case _ =>
    }
  }

  lemma {:induction false} CrashedStays(ws: seq<World>, ts: seq<Tid>, es: seq<Event>, i: nat, j: nat)
    requires IsRun(ws, ts, es) && i <= j < |ws| && ws[i].crashed
    ensures ws[j].crashed
  {
    hide AtRest, Next;
    if i < j {
      CrashedStays(ws, ts, es, i, j - 1);
      StepFrame(ws[j - 1], ws[j], ts[j - 1], es[j - 1]);
    }
  }

  /** When all calls are allowed, a run goes wrong if and only if one of its steps spoils. */
  lemma {:induction false} CrashesExactly(ws: seq<World>, ts: seq<Tid>, es: seq<Event>, j: nat)
    requires IsRun(ws, ts, es) && j < |ws|
    requires forall i | 0 <= i < j :: es[i].Call? ==> Legal(es[i].op)
    ensures ws[j].crashed <==> exists i :: 0 <= i < j && Spoils(ws[i], ts[i], es[i])
  {
    hide AtRest, Next, Spoils, Legal, Good, Sound, Represents, TreeSteps.Sized;
    if Careful(ws, ts, es, j) {
      NeverCrashes(ws, ts, es, j);
    } else if Careful(ws, ts, es, j - 1) {
      RunGood(ws, ts, es, j - 1);
      NextSpoiled(ws[j - 1], ws[j], ts[j - 1], es[j - 1]);
    } else {
      CrashesExactly(ws, ts, es, j - 1);
      CrashedStays(ws, ts, es, j - 1, j);
    }
  }

  // ----- what one step does to the map -----

  /** The operation has changed the map (and only has to release its pages and return). */
  ghost predicate Applied(th: Thread) {
    th.Busy?
    && match th.at
       case OnPair(k) => k.gone && k.decision.Here?
       case Unwinding(k) => k.result.Some?
       case Finished(answer) => th.op.goal.Put? || (!th.op.goal.Find? && answer.Some?)
       case _ => false
  }

  ghost function Answer(th: Thread): Option<Bytes>
    requires Applied(th)
  {
    match th.at
    case OnPair(k) => k.decision.answer
    case Unwinding(k) => k.result.value
    case Finished(answer) => answer
  }

  /** What `Applied` threads keep: updates and removals report the value they found. */
  ghost predicate AnswerFits(th: Thread) {
    Applied(th) ==> !th.op.goal.Find? && (th.op.goal.Put? <==> Answer(th).None?)
  }

  /** The operation takes effect in this step, and reports what it replaced. */
  ghost predicate Effect(w: World, w': World, op: Op, answer: Option<Bytes>) {
    && answer == Lookup(w.m, op.key)
    && match op.goal
       case Find => false
       case Put(v) => answer.None? && w'.m == w.m[op.key := v]
       case Set(f) => answer.Some? && w'.m == w.m[op.key := f(answer.value)]
       case Del => answer.Some? && w'.m == w.m - {op.key}
  }

  /** How a step of thread `t` moves its own operation along. */
  ghost predicate Progress(w: World, w': World, th: Thread, th': Thread) {
    th.Busy? && th'.Busy? ==>
      && th'.op == th.op && th.past <= th'.past && AnswerFits(th')
      && (th'.past <= th.past + {Lookup(w'.m, th.op.key)})
      && (Applied(th) ==> Applied(th') && Answer(th') == Answer(th) && w'.m == w.m)
      && (!Applied(th) && Applied(th') ==> Effect(w, w', th.op, Answer(th')))
      && (!Applied(th') ==> w'.m == w.m)
      && (!Applied(th') && th'.at.Finished? && !th.at.Finished? ==>
          th'.at.answer in th'.past && !th.op.goal.Put? && (th.op.goal.Find? || th'.at.answer.None?))
  }

  lemma WalkProgress(w: World, w': World, t: Tid, op: Op, past: set<Option<Bytes>>, k: Walk, e: Event)
    requires Good(w) && t in w.threads && w.threads[t] == Busy(op, past, Walking(k))
    requires WalkStep(w, w', t, op, past, k, e)
    ensures t in w'.threads && w'.threads[t].Busy? && Progress(w, w', w.threads[t], w'.threads[t])
  {
    hide Good, WalkStep, Lookup, Effect;
    WalkMoves(w, w', t, op, past, k, e);
    if e.Return? { ReturnKnown(w, t, op, past, k); }
  }

  /** Walking only moves the thread itself on, and leaves the map alone. */
  lemma WalkMoves(w: World, w': World, t: Tid, op: Op, past: set<Option<Bytes>>, k: Walk, e: Event)
    requires t in w.threads && w.threads[t] == Busy(op, past, Walking(k)) && WalkStep(w, w', t, op, past, k, e)
    ensures w'.m == w.m && t in w'.threads && w'.threads[t].Busy?
    ensures w'.threads[t].op == op && w'.threads[t].past == past && (e.Return? ==> k.look.Seen? && k.look.d.Here?)
    ensures var at := w'.threads[t].at;
      if e.Return? then
        && at == Finished(k.look.d.answer) && (op.goal.Find? || (!op.goal.Put? && k.look.d.answer.None?))
        && k.checked && k.parent.None? && k.trip.target.None?
      else at.Starting? || at.Walking? || at.OnLeaf? || at.OnParent?
  {
    hide CanGuard, Guarded, CanUpgrade, CheckPasses, Enabled, Apply, Decide, WellFormed, Searchable, ShiftLeft;
  }

  lemma ReturnKnown(w: World, t: Tid, op: Op, past: set<Option<Bytes>>, k: Walk)
    requires Good(w) && t in w.threads && w.threads[t] == Busy(op, past, Walking(k))
    requires k.checked && k.parent.None? && k.trip.target.None? && k.look.Seen? && k.look.d.Here?
    ensures k.look.d.answer in past
  {
    hide Good, Sane, Valid, Hangs, Live, Tells;
    StateOfBusy(w, t, op, past, Walking(k));
  }

  lemma CommitsOwn(w: World, w': World, t: Tid, op: Op, past: set<Option<Bytes>>, at: Stage, at': Stage, tree: Tree,
                   m: map<Bytes, Bytes>)
    requires t in w.threads && w.threads[t] == Busy(op, past, at) && Commits(w, w', t, at', tree, m)
    ensures t in w'.threads && w'.threads[t] == Busy(op, past + {Lookup(m, op.key)}, at') && w'.m == m
  {
    hide Held, TouchAll, Lookup;
  }

  lemma WritesOwn(w: World, w': World, t: Tid, th: Thread, p: Pid, n: Node)
    requires t in w.threads && Writes(w, w', t, th, p, n)
    ensures t in w'.threads && w'.threads[t] == th && w'.m == w.m
  {
    hide TouchAll;
  }

  lemma CommitLeafProgress(w: World, w': World, t: Tid, op: Op, past: set<Option<Bytes>>, k: Leaf)
    requires Good(w) && t in w.threads && w.threads[t] == Busy(op, past, OnLeaf(k))
    requires LeafStep(w, w', t, op, past, k, CommitLeaf) && !(op.goal.Put? && op.key in w.m)
    ensures t in w'.threads && w'.threads[t].Busy? && Progress(w, w', w.threads[t], w'.threads[t])
  {
    hide Good, Sound, Represents, Get, Slot, Within, WellFormed, Store, InsertEntry, SetPay, RemoveAt, Commits,
         Shaped, IsLeaf;
    LeafKnown(w, t, op, past, k);
    LeafSlot(w, t, op, past, k);
    LeafChanged(w, t, op, past, k);
    var n := w.tree.pages[k.c];
    var after := Unwinding(Back({k.c}, Anew(op), Some(k.answer)));
    CommitsOwn(w, w', t, op, past, OnLeaf(k), after, Store(w.tree, k.c, LeafAfter(n, op, k.slot)), MapAfter(w.m, op));
  }

  lemma LeafProgress(w: World, w': World, t: Tid, op: Op, past: set<Option<Bytes>>, k: Leaf, e: Event)
    requires Good(w) && t in w.threads && w.threads[t] == Busy(op, past, OnLeaf(k))
    requires LeafStep(w, w', t, op, past, k, e) && !Spoils(w, t, e)
    ensures t in w'.threads && w'.threads[t].Busy? && Progress(w, w', w.threads[t], w'.threads[t])
  {
    hide Good, LeafStep, AnswerFits, Progress;
    match e {
      case CommitLeaf => CommitLeafProgress(w, w', t, op, past, k);
      case Write(p, n) => LeafWriteProgress(w, w', t, op, past, k, p, n);
      case _ => LeafCheckProgress(w, w', t, op, past, k, e);
    }
  }

  lemma LeafWriteProgress(w: World, w': World, t: Tid, op: Op, past: set<Option<Bytes>>, k: Leaf, p: Pid, n: Node)
    requires t in w.threads && w.threads[t] == Busy(op, past, OnLeaf(k))
    requires LeafStep(w, w', t, op, past, k, Write(p, n))
    ensures t in w'.threads && w'.threads[t].Busy? && Progress(w, w', w.threads[t], w'.threads[t])
  {
    hide Writes, Lookup;
    WritesOwn(w, w', t, Busy(op, past, OnLeaf(k.(wrote := true))), p, n);
  }

  lemma LeafCheckProgress(w: World, w': World, t: Tid, op: Op, past: set<Option<Bytes>>, k: Leaf, e: Event)
    requires t in w.threads && w.threads[t] == Busy(op, past, OnLeaf(k))
    requires LeafStep(w, w', t, op, past, k, e) && !e.Write? && !e.CommitLeaf?
    ensures t in w'.threads && w'.threads[t].Busy? && Progress(w, w', w.threads[t], w'.threads[t])
  {
    hide Lookup, CheckPasses, Guarded;
  }

  lemma CommitDelProgress(w: World, w': World, t: Tid, op: Op, past: set<Option<Bytes>>, k: Pair)
    requires Good(w) && t in w.threads && w.threads[t] == Busy(op, past, OnPair(k))
    requires PairStep(w, w', t, op, past, k, CommitDel)
    ensures t in w'.threads && w'.threads[t].Busy? && Progress(w, w', w.threads[t], w'.threads[t])
  {
    hide Good, Shaped, Tiled, Apart, Chained, Represents, Slot, Within, WellFormed, Store, RemoveAt, Commits,
         PairOk, Get;
    DelReady(w, t, op, past, k);
    DelAnswer(w, t, op, past, k);
    var n := w.tree.pages[k.c];
    CommitsOwn(w, w', t, op, past, OnPair(k), OnPair(k.(gone := true, wrote := false)),
               Store(w.tree, k.c, RemoveAt(n, k.decision.slot)), w.m - {op.key});
  }

  lemma DelAnswer(w: World, t: Tid, op: Op, past: set<Option<Bytes>>, k: Pair)
    requires Good(w) && t in w.threads && w.threads[t] == Busy(op, past, OnPair(k))
    requires !k.gone && k.right.Some? && op.goal.Del?
    ensures k.decision.Here? && k.decision.answer == Lookup(w.m, op.key)
  {
    hide Good, Represents, Tiled, Apart, Chained, Within, Get, Slot, Less, Sorted;
    DelReady(w, t, op, past, k);
    PairFacts(w, t, op, past, k);
  }

  lemma PairProgress(w: World, w': World, t: Tid, op: Op, past: set<Option<Bytes>>, k: Pair, e: Event)
    requires Good(w) && t in w.threads && w.threads[t] == Busy(op, past, OnPair(k)) && AnswerFits(w.threads[t])
    requires PairStep(w, w', t, op, past, k, e) && !Spoils(w, t, e)
    ensures t in w'.threads && w'.threads[t].Busy? && Progress(w, w', w.threads[t], w'.threads[t])
  {
    hide Good, Spoils, PairStep, AnswerFits, Progress;
    match e {
      case CommitDel => CommitDelProgress(w, w', t, op, past, k);
      case Write(p, n) => PairWriteProgress(w, w', t, op, past, k, p, n);
      case CommitRoot => PairCommitProgress(w, w', t, op, past, k, e);
      case CommitSplit(_) => PairCommitProgress(w, w', t, op, past, k, e);
      case CommitMerge => PairCommitProgress(w, w', t, op, past, k, e);
      case _ =>
        GoneWithRight(w, t, op, past, k);
        PairOtherProgress(w, w', t, op, past, k, e);
    }
  }

  lemma GoneWithRight(w: World, t: Tid, op: Op, past: set<Option<Bytes>>, k: Pair)
    requires Good(w) && t in w.threads && w.threads[t] == Busy(op, past, OnPair(k))
    ensures k.gone ==> k.right.Some?
  {
    hide Good, Hangs, Tells, Kid, Owns, Within;
    PairFacts(w, t, op, past, k);
  }

  lemma PairWriteProgress(w: World, w': World, t: Tid, op: Op, past: set<Option<Bytes>>, k: Pair, p: Pid, n: Node)
    requires t in w.threads && w.threads[t] == Busy(op, past, OnPair(k)) && AnswerFits(w.threads[t])
    requires PairStep(w, w', t, op, past, k, Write(p, n))
    ensures t in w'.threads && w'.threads[t].Busy? && Progress(w, w', w.threads[t], w'.threads[t])
  {
    hide Writes, Lookup;
    WritesOwn(w, w', t, Busy(op, past, OnPair(k.(wrote := true))), p, n);
  }

  lemma PairOtherProgress(w: World, w': World, t: Tid, op: Op, past: set<Option<Bytes>>, k: Pair, e: Event)
    requires t in w.threads && w.threads[t] == Busy(op, past, OnPair(k)) && AnswerFits(w.threads[t])
    requires PairStep(w, w', t, op, past, k, e)
    requires !e.Write? && !e.CommitDel? && !e.CommitRoot? && !e.CommitSplit? && !e.CommitMerge?
    requires k.gone ==> k.right.Some?
    ensures t in w'.threads && w'.threads[t].Busy? && Progress(w, w', w.threads[t], w'.threads[t])
  {
    hide Lookup, Enabled, Apply, Kid, Inner, PairPages, FindSeparator, Separator, HasSpaceFor, WellFormed, Effect;
  }

  /** Structural changes leave the map alone. */
  lemma PairCommitProgress(w: World, w': World, t: Tid, op: Op, past: set<Option<Bytes>>, k: Pair, e: Event)
    requires Good(w) && t in w.threads && w.threads[t] == Busy(op, past, OnPair(k)) && AnswerFits(w.threads[t])
    requires PairStep(w, w', t, op, past, k, e) && !Spoils(w, t, e)
    requires e.CommitRoot? || e.CommitSplit? || e.CommitMerge?
    ensures t in w'.threads && w'.threads[t].Busy? && Progress(w, w', w.threads[t], w'.threads[t])
  {
    hide Good, Commits, CanMerge, MergeTree, GrowRoot, Shaped, Kid, PairPages, PairOk, TripOk, Owns, Within, Spoils,
         BoundedMerge, Legal, Reason;
    PairFacts(w, t, op, past, k);
    match e {
      case CommitRoot =>
        RootFacts(w, k);
        CommitsOwn(w, w', t, op, past, OnPair(k),
          OnPair(k.(p := k.spare.value, pos := 0, spare := None, extra := k.extra + {META},
              wrote := false)), GrowRoot(w.tree, k.spare.value), w.m);
      case CommitSplit(ordered) =>
        SplitProgress(w, w', t, op, past, k, ordered);
      case CommitMerge =>
        MergeReady(w, t, op, past, k);
        CommitsOwn(w, w', t, op, past, OnPair(k), Unwinding(Back(PairPages(k), Anew(op), Some(k.decision.answer))),
                   MergeTree(w.tree, k.p, k.pos), w.m);
      case _ =>
    }
  }

  lemma SplitProgress(w: World, w': World, t: Tid, op: Op, past: set<Option<Bytes>>, k: Pair, ordered: bool)
    requires Good(w) && t in w.threads && w.threads[t] == Busy(op, past, OnPair(k)) && AnswerFits(w.threads[t])
    requires PairStep(w, w', t, op, past, k, CommitSplit(ordered)) && !Spoils(w, t, CommitSplit(ordered))
    ensures t in w'.threads && w'.threads[t].Busy? && Progress(w, w', w.threads[t], w'.threads[t])
  {
    hide Good, Commits, CanSplit, SplitTree, SplitLeft, GoodCut, PairPages, FindSeparator, Separator, Fits,
         HasSpaceFor, WellFormed, LeftOverflows;
    SplitPut(w, t, op, past, k);
    FullCuttable(w, t, op, past, k);
    SplitReady(w, t, op, past, k, ordered);
    LeftFitsUnless(w, t, op, past, k, ordered);
    CommitsOwn(w, w', t, op, past, OnPair(k), Unwinding(Back(PairPages(k), Anew(op), None)),
               SplitTree(w.tree, k.p, k.c, TreeSteps.CutSlot(w.tree, k.c, ordered),
                         TreeSteps.CutKey(w.tree, k.c, ordered), k.spare.value), w.m);
  }

  /** Steps that neither walk, nor hold a leaf or a pair of pages. */
  lemma PlainProgress(w: World, w': World, t: Tid, op: Op, past: set<Option<Bytes>>, at: Stage, e: Event)
    requires Next(w, w', t, e) && w.threads[t] == Busy(op, past, at) && AnswerFits(w.threads[t])
    requires !at.Walking? && !at.OnLeaf? && !at.OnPair?
    ensures t in w'.threads && w'.m == w.m && Progress(w, w', w.threads[t], w'.threads[t])
    ensures !e.Retire? ==> w'.threads[t].Busy?
  {
    hide CanGuard, Guarded, Enabled, Apply, Lookup, CanUpgrade, Effect;
  }

  lemma NotBusyStep(w: World, w': World, t: Tid, e: Event)
    requires Next(w, w', t, e) && !w.threads[t].Busy?
    ensures t in w'.threads && w'.m == w.m && Progress(w, w', w.threads[t], w'.threads[t])
  {
    hide Enabled, Apply, Lookup, Effect;
  }

  lemma OwnStep(w: World, w': World, t: Tid, e: Event)
    requires Good(w) && Next(w, w', t, e) && !Spoils(w, t, e) && AnswerFits(w.threads[t])
    ensures t in w'.threads && Progress(w, w', w.threads[t], w'.threads[t])
    ensures !w.threads[t].Busy? || !w'.threads[t].Busy? ==> w'.m == w.m
    ensures w.threads[t].Busy? && !e.Retire? ==> w'.threads[t].Busy?
  {
    hide Good, WalkStep, LeafStep, TopStep, PairStep, BackStep, CanGuard, Guarded, Spoils, AnswerFits, Progress;
    match w.threads[t] {
      case Busy(op, past, at) =>
        match at {
          case Walking(k) => WalkProgress(w, w', t, op, past, k, e);
          case OnLeaf(k) => LeafProgress(w, w', t, op, past, k, e);
          case OnPair(k) => PairProgress(w, w', t, op, past, k, e);
          case _ => PlainProgress(w, w', t, op, past, at, e);
        }
      case _ => NotBusyStep(w, w', t, e);
    }
  }

  ghost predicate Kept(th: Thread, th': Thread, m: map<Bytes, Bytes>) {
    th' == th || exists written :: th' == Touch(th, written, m)
  }

  lemma TouchAllKeeps(w: World, w': World, t: Tid, th: Thread, written: set<Pid>, u: Tid)
    requires w'.threads == TouchAll(w.threads, written, w'.m)[t := th] && u in w.threads && u != t
    ensures u in w'.threads && Kept(w.threads[u], w'.threads[u], w'.m)
  {
    assert w'.threads[u] == Touch(w.threads[u], written, w'.m);
    hide Touch;
  }

  lemma CommitKeeps(w: World, w': World, t: Tid, at: Stage, tree: Tree, m: map<Bytes, Bytes>, u: Tid)
    requires t in w.threads && Commits(w, w', t, at, tree, m) && u in w.threads && u != t
    ensures u in w'.threads && Kept(w.threads[u], w'.threads[u], w'.m)
  {
    var th := w.threads[t];
    TouchAllKeeps(w, w', t, Busy(th.op, th.past + {Lookup(m, th.op.key)}, at), Held(th), u);
  }

  lemma LeafKeeps(w: World, w': World, t: Tid, op: Op, past: set<Option<Bytes>>, k: Leaf, e: Event, u: Tid)
    requires t in w.threads && LeafStep(w, w', t, op, past, k, e) && u in w.threads && u != t
    ensures u in w'.threads && Kept(w.threads[u], w'.threads[u], w'.m)
  {
    hide Commits, Kept, CheckPasses, Guarded, Shaped, Store, InsertEntry, RemoveAt, SetPay, TouchAll, Lookup;
    KeptSame(w.threads[u], w'.m);
    forall at, tree, m | Commits(w, w', t, at, tree, m) ensures u in w'.threads
        && Kept(w.threads[u], w'.threads[u], w'.m) {
      CommitKeeps(w, w', t, at, tree, m, u);
    }
    if e.Write? { TouchAllKeeps(w, w', t, Busy(op, past, OnLeaf(k.(wrote := true))), {e.p}, u); }
  }

  lemma KeptSame(th: Thread, m: map<Bytes, Bytes>)
    ensures Kept(th, th, m)
  {
    hide Touch;
  }

  lemma PairKeeps(w: World, w': World, t: Tid, op: Op, past: set<Option<Bytes>>, k: Pair, e: Event, u: Tid)
    requires t in w.threads && PairStep(w, w', t, op, past, k, e) && u in w.threads && u != t
    ensures u in w'.threads && Kept(w.threads[u], w'.threads[u], w'.m)
  {
    hide Commits, Kept, Enabled, Apply, CanSplit, CanMerge, SplitTree, MergeTree, GrowRoot, GoodCut, Shaped, Kid,
         Inner, Store, RemoveAt, PairPages, TouchAll, Lookup;
    KeptSame(w.threads[u], w'.m);
    forall at, tree, m | Commits(w, w', t, at, tree, m) ensures u in w'.threads
        && Kept(w.threads[u], w'.threads[u], w'.m) {
      CommitKeeps(w, w', t, at, tree, m, u);
    }
    if e.Write? { TouchAllKeeps(w, w', t, Busy(op, past, OnPair(k.(wrote := true))), {e.p}, u); }
  }

  lemma WalkKeeps(w: World, w': World, t: Tid, op: Op, past: set<Option<Bytes>>, k: Walk, e: Event, u: Tid)
    requires t in w.threads && WalkStep(w, w', t, op, past, k, e) && u in w.threads && u != t
    ensures u in w'.threads && w'.threads[u] == w.threads[u]
  {
    hide CheckPasses, Guarded, CanGuard, CanUpgrade, Enabled, Apply, Decide, WellFormed;
  }

  lemma OtherTouched(w: World, w': World, t: Tid, e: Event, u: Tid)
    requires Next(w, w', t, e) && u in w.threads && u != t
    ensures u in w'.threads && Kept(w.threads[u], w'.threads[u], w'.m)
  {
    hide WalkStep, LeafStep, PairStep, Kept, CanGuard, Guarded, Enabled, Apply, CanUpgrade, Lookup;
    KeptSame(w.threads[u], w'.m);
    match w.threads[t] {
      case Busy(op, past, at) =>
        match at {
          case Walking(k) => WalkKeeps(w, w', t, op, past, k, e, u);
          case OnLeaf(k) => LeafKeeps(w, w', t, op, past, k, e, u);
          case OnPair(k) => PairKeeps(w, w', t, op, past, k, e, u);
          case _ =>
        }
      case _ =>
    }
  }

  /** A step of another thread leaves an operation as it is, except that the map may say something new. */
  lemma OtherStep(w: World, w': World, t: Tid, e: Event, u: Tid)
    requires Next(w, w', t, e) && u in w.threads && u != t
    ensures u in w'.threads
    ensures var th, th' := w.threads[u], w'.threads[u];
      && (th.Busy? <==> th'.Busy?)
      && (th.Busy? ==>
          && th'.op == th.op && th.past <= th'.past <= th.past + {Lookup(w'.m, th.op.key)}
          && (th.at.Finished? || th'.at.Finished? ==> th'.at == th.at)
          && (Applied(th) <==> Applied(th')) && (Applied(th) ==> Answer(th') == Answer(th)))
  {
    OtherTouched(w, w', t, e, u);
    hide Next, Lookup;
  }

  // ----- every operation, in every run -----

  /** The call that thread `t` makes in step `i` is still the one it is in before step `j`. */
  ghost predicate SameCall(ts: seq<Tid>, es: seq<Event>, t: Tid, i: nat, j: nat)
    requires |ts| == |es|
  {
    && i < j <= |es| && ts[i] == t && es[i].Call?
    && forall l | i < l < j && ts[l] == t :: !es[l].Call? && !es[l].Retire?
  }

  /** Of the steps of `t` after `i` and before `j`, the one at `at` takes effect and the others leave the map alone. */
  ghost predicate EffectAt(ws: seq<World>, ts: seq<Tid>, t: Tid, op: Op, answer: Option<Bytes>, i: nat, j: nat, at: nat)
    requires j < |ws| == |ts| + 1
  {
    && i < at < j && ts[at] == t && Effect(ws[at], ws[at + 1], op, answer)
    && forall l | i < l < j && l != at && ts[l] == t :: ws[l + 1].m == ws[l].m
  }

  ghost predicate NoEffect(ws: seq<World>, ts: seq<Tid>, t: Tid, i: nat, j: nat)
    requires j < |ws| == |ts| + 1
  {
    forall l | i < l < j && ts[l] == t :: ws[l + 1].m == ws[l].m
  }

  /** At some moment after the call, the map said `v` for the key. */
  predicate SaidSince(ws: seq<World>, key: Bytes, v: Option<Bytes>, i: nat, j: nat)
    requires j < |ws|
  {
    exists l :: i < l <= j && Lookup(ws[l].m, key) == v
  }

  ghost predicate History(ws: seq<World>, ts: seq<Tid>, t: Tid, op: Op, i: nat, j: nat)
    requires j < |ws| == |ts| + 1
  {
    && t in ws[j].threads && ws[j].threads[t].Busy? && ws[j].threads[t].op == op
    && var th := ws[j].threads[t];
       && AnswerFits(th)
       && (forall v | v in th.past :: SaidSince(ws, op.key, v, i, j))
       && (if Applied(th) then exists at :: EffectAt(ws, ts, t, op, Answer(th), i, j, at) else NoEffect(ws, ts, t, i,
           j))
       && (th.at.Finished? && !Applied(th) ==>
           th.at.answer in th.past && !op.goal.Put? && (op.goal.Find? || th.at.answer.None?))
  }

  lemma CallStarts(ws: seq<World>, ts: seq<Tid>, es: seq<Event>, i: nat)
    requires IsRun(ws, ts, es) && i < |es| && es[i].Call?
    ensures History(ws, ts, ts[i], es[i].op, i, i + 1)
  {
    assert Next(ws[i], ws[i + 1], ts[i], es[i]);
    CallStep(ws[i], ws[i + 1], ts[i], es[i]);
    hide Next, AtRest, Lookup;
    assert Lookup(ws[i + 1].m, es[i].op.key) == Lookup(ws[i + 1].m, es[i].op.key);
    assert SaidSince(ws, es[i].op.key, Lookup(ws[i + 1].m, es[i].op.key), i, i + 1);
  }

  lemma CallStep(w: World, w': World, t: Tid, e: Event)
    requires Next(w, w', t, e) && e.Call?
    ensures t in w'.threads && w'.threads[t] == Busy(e.op, {Lookup(w'.m, e.op.key)}, Starting(Anew(e.op)))
  {
    hide Lookup, Enabled, Apply, CanGuard, Guarded;
  }

  lemma SaidLonger(ws: seq<World>, key: Bytes, v: Option<Bytes>, i: nat, j: nat)
    requires j + 1 < |ws| && SaidSince(ws, key, v, i, j)
    ensures SaidSince(ws, key, v, i, j + 1)
  {
    hide Lookup;
  }

  lemma PastGrows(ws: seq<World>, key: Bytes, past: set<Option<Bytes>>, past': set<Option<Bytes>>, i: nat, j: nat)
    requires i < j && j + 1 < |ws| && past' <= past + {Lookup(ws[j + 1].m, key)}
    requires forall v | v in past :: SaidSince(ws, key, v, i, j)
    ensures forall v | v in past' :: SaidSince(ws, key, v, i, j + 1)
  {
    hide SaidSince, Lookup;
    forall v | v in past' ensures SaidSince(ws, key, v, i, j + 1) {
      if v in past { SaidLonger(ws, key, v, i, j); } else { SaidNow(ws, key, i, j + 1); }
    }
  }

  lemma SaidNow(ws: seq<World>, key: Bytes, i: nat, j: nat)
    requires i < j < |ws|
    ensures SaidSince(ws, key, Lookup(ws[j].m, key), i, j)
  {
    hide Lookup;
  }

  lemma OwnHistory(ws: seq<World>, ts: seq<Tid>, es: seq<Event>, t: Tid, op: Op, i: nat, j: nat)
    requires IsRun(ws, ts, es) && i < j < |es| && Careful(ws, ts, es, j + 1) && ts[j] == t && !es[j].Retire?
    requires History(ws, ts, t, op, i, j)
    ensures History(ws, ts, t, op, i, j + 1)
  {
    hide Next, AtRest, Good, Lookup, Effect, SaidSince, Answer, Applied, Spoils, Legal;
    RunGood(ws, ts, es, j);
    var th := ws[j].threads[t];
    OwnStep(ws[j], ws[j + 1], t, es[j]);
    var th' := ws[j + 1].threads[t];
    PastGrows(ws, op.key, th.past, th'.past, i, j);
    if Applied(th) {
      var at :| EffectAt(ws, ts, t, op, Answer(th), i, j, at);
      assert EffectAt(ws, ts, t, op, Answer(th'), i, j + 1, at);
    } else if Applied(th') {
      assert EffectAt(ws, ts, t, op, Answer(th'), i, j + 1, j);
    }
    if th.at.Finished? { FinishedKept(ws[j], ws[j + 1], t, es[j]); }
  }

  lemma FinishedKept(w: World, w': World, t: Tid, e: Event)
    requires Next(w, w', t, e) && w.threads[t].Busy? && w.threads[t].at.Finished?
    ensures e.Retire?
  {
    hide Lookup, Enabled, Apply, CanGuard, Guarded;
  }

  lemma OtherHistory(ws: seq<World>, ts: seq<Tid>, es: seq<Event>, t: Tid, op: Op, i: nat, j: nat)
    requires IsRun(ws, ts, es) && i < j < |es| && ts[j] != t
    requires History(ws, ts, t, op, i, j)
    ensures History(ws, ts, t, op, i, j + 1)
  {
    hide Next, AtRest, Lookup, Effect, SaidSince, Answer, Applied;
    var th := ws[j].threads[t];
    OtherStep(ws[j], ws[j + 1], ts[j], es[j], t);
    var th' := ws[j + 1].threads[t];
    PastGrows(ws, op.key, th.past, th'.past, i, j);
    if Applied(th) {
      var at :| EffectAt(ws, ts, t, op, Answer(th), i, j, at);
      assert EffectAt(ws, ts, t, op, Answer(th'), i, j + 1, at);
    }
  }

  lemma {:induction false} CallHistory(ws: seq<World>, ts: seq<Tid>, es: seq<Event>, t: Tid, i: nat, j: nat)
    requires IsRun(ws, ts, es) && SameCall(ts, es, t, i, j) && Careful(ws, ts, es, j)
    ensures History(ws, ts, t, es[i].op, i, j)
    decreases j
  {
    hide Next, AtRest, History, Spoils, Legal;
    if j == i + 1 {
      CallStarts(ws, ts, es, i);
    } else {
      CallHistory(ws, ts, es, t, i, j - 1);
      if ts[j - 1] == t {
        OwnHistory(ws, ts, es, t, es[i].op, i, j - 1);
      } else {
        OtherHistory(ws, ts, es, t, es[i].op, i, j - 1);
      }
    }
  }

  /** Lookups are linearizable: what a finished lookup returns is what the key mapped to (or its absence)
      at some moment between the call and the return, whatever the other threads did. */
  lemma LookupLinearizable(ws: seq<World>, ts: seq<Tid>, es: seq<Event>, t: Tid, i: nat, j: nat)
    requires IsRun(ws, ts, es) && SameCall(ts, es, t, i, j) && Careful(ws, ts, es, j) && es[i].op.goal.Find?
    requires t in ws[j].threads && ws[j].threads[t].Busy? && ws[j].threads[t].at.Finished?
    ensures exists l :: i < l <= j && Lookup(ws[l].m, es[i].op.key) == ws[j].threads[t].at.answer
    ensures NoEffect(ws, ts, t, i, j)
  {
    CallHistory(ws, ts, es, t, i, j);
    var answer := ws[j].threads[t].at.answer;
    assert SaidSince(ws, es[i].op.key, answer, i, j);
  }

  /** A finished insert has changed the map in exactly one step, from a moment when its key was absent. */
  lemma InsertOnce(ws: seq<World>, ts: seq<Tid>, es: seq<Event>, t: Tid, i: nat, j: nat)
    requires IsRun(ws, ts, es) && SameCall(ts, es, t, i, j) && Careful(ws, ts, es, j) && es[i].op.goal.Put?
    requires t in ws[j].threads && ws[j].threads[t].Busy? && ws[j].threads[t].at.Finished?
    ensures exists at :: EffectAt(ws, ts, t, es[i].op, None, i, j, at)
  {
    CallHistory(ws, ts, es, t, i, j);
    hide EffectAt;
  }

  /** A finished removal or update either found the key and changed the map in exactly one step, or saw
      the key absent at some moment and changed nothing. */
  lemma ChangeOnce(ws: seq<World>, ts: seq<Tid>, es: seq<Event>, t: Tid, i: nat, j: nat)
    requires IsRun(ws, ts, es) && SameCall(ts, es, t, i, j) && Careful(ws, ts, es, j)
        && (es[i].op.goal.Del? || es[i].op.goal.Set?)
    requires t in ws[j].threads && ws[j].threads[t].Busy? && ws[j].threads[t].at.Finished?
    ensures var answer := ws[j].threads[t].at.answer;
      if answer.Some? then exists at :: EffectAt(ws, ts, t, es[i].op, answer, i, j, at)
      else NoEffect(ws, ts, t, i, j) && SaidSince(ws, es[i].op.key, None, i, j)
  {
    CallHistory(ws, ts, es, t, i, j);
    hide EffectAt, SaidSince, NoEffect;
  }
}
