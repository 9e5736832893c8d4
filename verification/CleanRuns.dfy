/** A condition on the calls alone under which no step of a run goes wrong: the keys are tame, and none is inserted
    twice or is there at the start. */
module CleanRuns {
  import opened Keys
  import opened Nodes
  import opened PageLocks
  import opened Reads
  import opened Spaces
  import opened Trees
  import opened TreeSteps
  import opened Olc
  import opened OlcProofs
  import opened Linear

  predicate Puts(e: Event) {
    e.Call? && e.op.goal.Put?
  }

  /** `keys` are all keys that the tree may come to hold. */
  ghost predicate CleanCalls(m: map<Bytes, Bytes>, es: seq<Event>, keys: set<Bytes>) {
    && TameKeys(keys) && m.Keys <= keys
    && (forall i | 0 <= i < |es| && es[i].Call? :: Legal(es[i].op))
    && (forall i | 0 <= i < |es| && Puts(es[i]) :: es[i].op.key in keys && es[i].op.key !in m)
    && (forall i, j | 0 <= i < j < |es| && Puts(es[i]) && Puts(es[j]) :: es[i].op.key != es[j].op.key)
  }

  lemma WalkEvents(w: World, w': World, t: Tid, op: Op, past: set<Option<Bytes>>, k: Walk, e: Event)
    requires WalkStep(w, w', t, op, past, k, e)
    ensures !e.Call? && !e.Retire?
  {
    hide Checks, Moves, MovesLock, TakesX, Crashes, WellFormed, CanGuard, CanUpgrade, Guarded, Searchable, Decide;
  }

  lemma LeafEvents(w: World, w': World, t: Tid, op: Op, past: set<Option<Bytes>>, k: Leaf, e: Event)
    requires t in w.threads && LeafStep(w, w', t, op, past, k, e)
    ensures !e.Call? && !e.Retire?
  {
    hide Checks, Writes, Commits, Crashes, Shaped, IsLeaf, Store, InsertEntry, RemoveAt, SetPay, HasSpaceFor;
  }

  lemma StepEvents(w: World, w': World, t: Tid, e: Event)
    requires Next(w, w', t, e)
    ensures e.Call? <==> w.threads[t].Idle?
    ensures e.Retire? || w.threads[t].Agent? ==> t in w'.threads && !w'.threads[t].Busy?
  {
    hide WalkStep, LeafStep, PairStep, CanGuard, Guarded, Enabled, Apply, Lookup, CanUpgrade;
    match w.threads[t] {
      case Busy(op, past, at) =>
        match at {
          case Walking(k) => WalkEvents(w, w', t, op, past, k, e);
          case OnLeaf(k) => LeafEvents(w, w', t, op, past, k, e);
          case OnPair(k) => PairEvents(w, w', t, op, past, k, e);
          case _ =>
        }
      case _ =>
    }
  }

  lemma NextThread(w: World, w': World, t: Tid, e: Event)
    requires Next(w, w', t, e)
    ensures t in w.threads && (!w.threads[t].Busy? ==> AnswerFits(w.threads[t]))
  {
  }

  ghost predicate Began(ws: seq<World>, ts: seq<Tid>, es: seq<Event>, t: Tid, i: nat, j: nat)
    requires j < |ws| == |ts| + 1 == |es| + 1
  {
    SameCall(ts, es, t, i, j) && History(ws, ts, t, es[i].op, i, j)
  }

  /** A thread inside an operation has called it. */
  lemma {:induction false} BusyBegan(ws: seq<World>, ts: seq<Tid>, es: seq<Event>, t: Tid, j: nat)
    requires IsRun(ws, ts, es) && j < |ws| && Careful(ws, ts, es, j)
    requires t in ws[j].threads && ws[j].threads[t].Busy?
    ensures exists i: nat :: Began(ws, ts, es, t, i, j)
  {
    hide AtRest, Next, History, Spoils, Legal, SameCall;
    if j == 0 {
      RestIdle(ws[0], t);
    } else if ts[j - 1] != t {
      StepFrame(ws[j - 1], ws[j], ts[j - 1], es[j - 1]);
      OtherStep(ws[j - 1], ws[j], ts[j - 1], es[j - 1], t);
      BusyBegan(ws, ts, es, t, j - 1);
      var i: nat :| Began(ws, ts, es, t, i, j - 1);
      CallBefore(ts, es, t, i, j - 1);
      OtherHistory(ws, ts, es, t, es[i].op, i, j - 1);
      CallLonger(ts, es, t, i, j - 1);
      assert Began(ws, ts, es, t, i, j);
    } else {
      StepEvents(ws[j - 1], ws[j], t, es[j - 1]);
      NextThread(ws[j - 1], ws[j], t, es[j - 1]);
      if es[j - 1].Call? {
        CallStarts(ws, ts, es, j - 1);
        CallNow(ts, es, j - 1);
        assert Began(ws, ts, es, t, j - 1, j);
      } else {
        BusyBegan(ws, ts, es, t, j - 1);
        var i: nat :| Began(ws, ts, es, t, i, j - 1);
        CallBefore(ts, es, t, i, j - 1);
        OwnHistory(ws, ts, es, t, es[i].op, i, j - 1);
        CallLonger(ts, es, t, i, j - 1);
        assert Began(ws, ts, es, t, i, j);
      }
    }
  }

  lemma RestIdle(w: World, t: Tid)
    requires AtRest(w) && t in w.threads
    ensures !w.threads[t].Busy?
  {
    hide TreeOk, LocksOk;
  }

  lemma CallBefore(ts: seq<Tid>, es: seq<Event>, t: Tid, i: nat, j: nat)
    requires |ts| == |es| && SameCall(ts, es, t, i, j)
    ensures i < j && es[i].Call?
  {
  }

  lemma CallNow(ts: seq<Tid>, es: seq<Event>, i: nat)
    requires |ts| == |es| && i < |es| && es[i].Call?
    ensures SameCall(ts, es, ts[i], i, i + 1)
  {
  }

  lemma CallLonger(ts: seq<Tid>, es: seq<Event>, t: Tid, i: nat, j: nat)
    requires |ts| == |es| && j < |es| && SameCall(ts, es, t, i, j)
    requires ts[j] == t ==> !es[j].Call? && !es[j].Retire?
    ensures SameCall(ts, es, t, i, j + 1)
  {
  }

  /** The map only changes when an operation takes effect. */
  lemma MapMoves(ws: seq<World>, ts: seq<Tid>, es: seq<Event>, j: nat) returns (answer: Option<Bytes>)
    requires IsRun(ws, ts, es) && j < |ts| && Careful(ws, ts, es, j + 1) && ws[j + 1].m != ws[j].m
    ensures ts[j] in ws[j].threads && ws[j].threads[ts[j]].Busy?
    ensures Effect(ws[j], ws[j + 1], ws[j].threads[ts[j]].op, answer)
  {
    hide AtRest, Next, Spoils, Legal, Good, Effect, Answer, Applied;
    RunGood(ws, ts, es, j);
    NextThread(ws[j], ws[j + 1], ts[j], es[j]);
    if ws[j].threads[ts[j]].Busy? { AnswersFit(ws, ts, es, ts[j], j); }
    OwnStep(ws[j], ws[j + 1], ts[j], es[j]);
    answer := Answer(ws[j + 1].threads[ts[j]]);
  }

  lemma AnswersFit(ws: seq<World>, ts: seq<Tid>, es: seq<Event>, t: Tid, j: nat)
    requires IsRun(ws, ts, es) && j < |ws| && Careful(ws, ts, es, j)
    requires t in ws[j].threads && ws[j].threads[t].Busy?
    ensures AnswerFits(ws[j].threads[t])
  {
    hide AtRest, Next, Spoils, Legal, SameCall, AnswerFits;
    BusyBegan(ws, ts, es, t, j);
  }

  lemma NewKey(w: World, w': World, op: Op, answer: Option<Bytes>, key: Bytes)
    requires Effect(w, w', op, answer) && key !in w.m && key in w'.m
    ensures op.goal.Put? && op.key == key
  {
  }

  lemma {:induction false} Entered(ws: seq<World>, key: Bytes, j: nat) returns (l: nat)
    requires j < |ws| && key !in ws[0].m && key in ws[j].m
    ensures l < j && key !in ws[l].m && key in ws[l + 1].m
  {
    if key in ws[j - 1].m { l := Entered(ws, key, j - 1); } else { l := j - 1; }
  }

  /** Who put a key into the map has called for it. */
  lemma PutBegan(ws: seq<World>, ts: seq<Tid>, es: seq<Event>, key: Bytes, l: nat) returns (i: nat)
    requires IsRun(ws, ts, es) && l < |ts| && Careful(ws, ts, es, l + 1) && key !in ws[l].m && key in ws[l + 1].m
    ensures Began(ws, ts, es, ts[l], i, l) && i < l && es[i].Call? && es[i].op.goal.Put? && es[i].op.key == key
  {
    hide AtRest, Next, Spoils, Legal, Effect, EffectAt, NoEffect, AnswerFits;
    var answer := MapMoves(ws, ts, es, l);
    var op := ws[l].threads[ts[l]].op;
    NewKey(ws[l], ws[l + 1], op, answer, key);
    BusyBegan(ws, ts, es, ts[l], l);
    i :| Began(ws, ts, es, ts[l], i, l);
  }

  /** Before its own effect, an insert finds its key absent. */
  lemma PutAbsent(ws: seq<World>, ts: seq<Tid>, es: seq<Event>, keys: set<Bytes>, t: Tid, i: nat, j: nat)
    requires IsRun(ws, ts, es) && j < |ws| && Careful(ws, ts, es, j) && CleanCalls(ws[0].m, es, keys)
    requires Began(ws, ts, es, t, i, j) && es[i].op.goal.Put? && !Applied(ws[j].threads[t])
    ensures es[i].op.key !in ws[j].m
  {
    hide AtRest, Next, Spoils, Legal, Applied, TameKeys;
    var key := es[i].op.key;
    assert Puts(es[i]);
    if key in ws[j].m {
      var l := Entered(ws, key, j);
      var i' := PutBegan(ws, ts, es, key, l);
    }
  }

  /** The map holds none but the given keys. */
  lemma {:induction false} KeysGiven(ws: seq<World>, ts: seq<Tid>, es: seq<Event>, keys: set<Bytes>, j: nat)
    requires IsRun(ws, ts, es) && j < |ws| && Careful(ws, ts, es, j) && CleanCalls(ws[0].m, es, keys)
    ensures ws[j].m.Keys <= keys
  {
    hide AtRest, Next, Spoils, Legal, Began, TameKeys;
    if j > 0 {
      KeysGiven(ws, ts, es, keys, j - 1);
      forall k | k in ws[j].m ensures k in keys {
        if k !in ws[j - 1].m {
          var i := PutBegan(ws, ts, es, k, j - 1);
          assert Puts(es[i]);
        }
      }
    }
  }

  /** Leaves whose neighbouring keys are tame have a left half that fits. */
  lemma TameCalm(n: Node, ordered: bool)
    requires Cuttable(n) && Fits(n) && (n.leaf ==> forall i | 0 <= i < |n.keys| - 1 :: Tame(n.keys[i], n.keys[i + 1]))
    ensures !LeftOverflows(n, ordered)
  {
    hide Fits, FindSeparator, Separator, GoodCut, SplitLeft, Tame;
    if n.leaf {
      SeparatorCuts(n, ordered);
      LeftFits(n, ordered, NO_NEIGHBOUR);
      TameFits(n, ordered, NO_NEIGHBOUR);
    }
  }

  lemma SplitCalm(w: World, t: Tid, op: Op, past: set<Option<Bytes>>, k: Pair, ordered: bool)
    requires Good(w) && t in w.threads && w.threads[t] == Busy(op, past, OnPair(k))
    requires k.c in w.tree.pages && Cuttable(w.tree.pages[k.c]) && TameKeys(w.m.Keys)
    ensures !LeftOverflows(w.tree.pages[k.c], ordered)
  {
    hide LocksOk, MemOk, OpenOk, ThreadsOk, LeftOverflows, PairOk, Tiled, Apart, Chained, Represents, Owns, Fits, Small,
         TameKeys, Tame;
    PairFacts(w, t, op, past, k);
    assert SizedPage(w.tree, k.c);
    if w.tree.pages[k.c].leaf { LeafTame(w.tree, w.m, k.c); }
    TameCalm(w.tree.pages[k.c], ordered);
  }

  lemma FewerTame(keys: set<Bytes>, all: set<Bytes>)
    requires TameKeys(all) && keys <= all
    ensures TameKeys(keys)
  {
    hide Tame, Less;
  }

  lemma StepCalm(ws: seq<World>, ts: seq<Tid>, es: seq<Event>, keys: set<Bytes>, j: nat)
    requires IsRun(ws, ts, es) && j < |ts| && Careful(ws, ts, es, j) && CleanCalls(ws[0].m, es, keys)
    ensures !Spoils(ws[j], ts[j], es[j])
  {
    hide AtRest, Next, Legal, Good, LeftOverflows, Cuttable, Began, TameKeys;
    var w, t := ws[j], ts[j];
    RunGood(ws, ts, es, j);
    KeysGiven(ws, ts, es, keys, j);
    FewerTame(w.m.Keys, keys);
    if Spoils(w, t, es[j]) {
      var th := w.threads[t];
      if es[j].CommitLeaf? {
        BusyBegan(ws, ts, es, t, j);
        var i: nat :| Began(ws, ts, es, t, i, j);
        BeganOp(ws, ts, es, t, i, j);
        PutAbsent(ws, ts, es, keys, t, i, j);
      } else {
        SplitCalm(w, t, th.op, th.past, th.at.pair, es[j].ordered);
      }
    }
  }

  lemma BeganOp(ws: seq<World>, ts: seq<Tid>, es: seq<Event>, t: Tid, i: nat, j: nat)
    requires j < |ws| == |ts| + 1 == |es| + 1 && Began(ws, ts, es, t, i, j)
    ensures i < j && es[i].Call? && t in ws[j].threads && ws[j].threads[t].Busy? && ws[j].threads[t].op == es[i].op
  {
    hide AnswerFits, EffectAt, NoEffect, SaidSince;
  }

  /** With such calls nothing goes wrong, whatever the interleaving: no step spoils, no assertion fails, no page
      overflows, and the tree stands for the map at every moment. */
  lemma {:induction false} CleanRunSafe(ws: seq<World>, ts: seq<Tid>, es: seq<Event>, keys: set<Bytes>, j: nat)
    requires IsRun(ws, ts, es) && j < |ws| && CleanCalls(ws[0].m, es, keys)
    ensures Careful(ws, ts, es, j) && !ws[j].crashed && Sound(ws[j].tree) && Represents(ws[j].tree, ws[j].m)
  {
    hide AtRest, Next, Legal, Spoils, Sound, Represents, Sized, TameKeys;
    if j > 0 {
      CleanRunSafe(ws, ts, es, keys, j - 1);
      StepCalm(ws, ts, es, keys, j - 1);
    }
    NeverCrashes(ws, ts, es, j);
  }
}
