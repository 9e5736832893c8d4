/** The dense form of the search: every level sweeps over all vertices in parallel, without atomic
    operations. Reads and writes of levels and bitmap words are single steps that interleave freely; bits
    can get lost, levels cannot. A bitmap word is seen as the set of its one bits. */
module Sweep {
  import opened Graphs
  import opened Bfs

  // ----- the bitmap -----

  lemma BitInside(size: nat, pos: nat)
    requires pos < size
    ensures pos / 64 < BitmapSize(size)
  {
  }

  predicate GetBit(bitmap: seq<set<nat>>, pos: nat)
    requires pos / 64 < |bitmap|
  {
    pos % 64 in bitmap[pos / 64]
  }

  /** A set bit only ever belongs to a vertex that has a level. */
  predicate BitsFit(g: Graph, bitmap: seq<set<nat>>, level: seq<int>) {
    |level| == g.n && |bitmap| == BitmapSize(g.n) && forall v: nat | v < g.n :: BitFits(g, bitmap, level, v)
  }

  predicate BitFits(g: Graph, bitmap: seq<set<nat>>, level: seq<int>, v: nat)
    requires v < g.n == |level| && |bitmap| == BitmapSize(g.n)
  {
    BitInside(g.n, v);
    GetBit(bitmap, v) ==> level[v] != INFINITE
  }

  /** A word that a thread has read: all its bits belong to vertices with a level, now and later. */
  predicate WordFits(g: Graph, level: seq<int>, block: nat, word: set<nat>)
    requires |level| == g.n
  {
    forall v: nat | v < g.n && v / 64 == block && v % 64 in word :: level[v] != INFINITE
  }

  // ----- threads -----

  datatype Phase = Enter | Edges | ReadLevel | WriteLevel | LoadWord | StoreWord(word: set<nat>) | Raise

  /** The thread sweeps vertices up to `end`; inside a vertex it is at edge `j`. */
  datatype Sweeper = Sweeper(src: nat, j: nat, end: nat, phase: Phase)

  predicate Late(w: Sweeper) {
    w.src < w.end && (w.phase.LoadWord? || w.phase.StoreWord? || w.phase.Raise?)
  }

  predicate Done(g: Graph, before: seq<int>, level: seq<int>, d: nat, src: nat)
    requires WellFormed(g) && |before| == |level| == g.n && src < g.n
  {
    g.index[src + 1] <= |g.edges| && (before[src] == d ==> SeenTo(g, level, src, g.index[src + 1]))
  }

  /** Everything before the thread's position has been handled, and its phase matches what it has read. */
  predicate SweeperOk(g: Graph, before: seq<int>, level: seq<int>, d: nat, start: nat, w: Sweeper)
    requires WellFormed(g) && |before| == |level| == g.n
  {
    && start <= w.src <= w.end <= g.n
    && (forall s | start <= s < w.src :: Done(g, before, level, d, s))
    && (w.src < w.end && !w.phase.Enter? ==>
        before[w.src] == d && g.index[w.src] <= w.j <= g.index[w.src + 1] <= |g.edges| && SeenTo(g, level, w.src, w.j)
        && (!w.phase.Edges? ==> w.j < g.index[w.src + 1] && g.edges[w.j] < g.n && InPhase(g, before, level, g.edges[w.j], w.phase)))
  }

  predicate InPhase(g: Graph, before: seq<int>, level: seq<int>, trg: nat, phase: Phase)
    requires |before| == |level| == g.n && trg < g.n
  {
    match phase
    case WriteLevel => before[trg] == INFINITE
    case LoadWord => before[trg] == INFINITE != level[trg]
    case StoreWord(word) => before[trg] == INFINITE != level[trg] && WordFits(g, level, trg / 64, word)
    case Raise => before[trg] == INFINITE != level[trg]
    case _ => true
  }

  ghost predicate Sweepers(g: Graph, before: seq<int>, level: seq<int>, d: nat, cuts: seq<nat>, ws: seq<Sweeper>)
    requires WellFormed(g) && |before| == |level| == g.n
  {
    |cuts| == |ws| + 1 && forall t | 0 <= t < |ws| :: ws[t].end == cuts[t + 1] && SweeperOk(g, before, level, d, cuts[t], ws[t])
  }

  /** The loop's iterations are handed out in contiguous blocks. */
  predicate Cuts(g: Graph, cuts: seq<nat>) {
    |cuts| > 1 && cuts[0] == 0 && cuts[|cuts| - 1] == g.n && forall s, t | 0 <= s <= t < |cuts| ::
        cuts[s] <= cuts[t] <= g.n
  }

  predicate ChangedAt(before: seq<int>, level: seq<int>, v: nat) {
    v < |before| && v < |level| && level[v] != before[v]
  }

  ghost predicate Changed(before: seq<int>, level: seq<int>) {
    exists v: nat :: ChangedAt(before, level, v)
  }

  ghost predicate SomeLate(ws: seq<Sweeper>) {
    exists t: nat | t < |ws| :: Late(ws[t])
  }

  /** A changed level has been announced, or its writer is about to. */
  ghost predicate Announced(before: seq<int>, level: seq<int>, ws: seq<Sweeper>, raised: bool) {
    (raised ==> Changed(before, level)) && (Changed(before, level) ==> raised || SomeLate(ws))
  }

  ghost predicate HasShell(g: Graph, root: nat, d: nat)
    requires WellFormed(g) && root < g.n
  {
    exists v: nat :: AtDistance(g, root, v, d)
  }

  // ----- termination -----

  function Rank(p: Phase): int {
    match p
    case Enter => 7
    case Edges => 6
    case ReadLevel => 5
    case WriteLevel => 4
    case LoadWord => 3
    case StoreWord(_) => 2
    case Raise => 1
  }

  function Left(g: Graph, w: Sweeper): int {
    if w.src >= w.end then 0
    else (w.end - w.src) * (7 * |g.edges| + 20) + (if w.phase.Enter? then 7 * |g.edges| + 8 else 7 * (|g.edges| - w.j) + Rank(w.phase))
  }

  function AllLeft(g: Graph, ws: seq<Sweeper>): int {
    if |ws| == 0 then 0 else Left(g, ws[0]) + AllLeft(g, ws[1..])
  }

  lemma {:induction false} LeftUpdate(g: Graph, ws: seq<Sweeper>, t: nat, w: Sweeper)
    requires t < |ws|
    ensures AllLeft(g, ws[t := w]) == AllLeft(g, ws) - Left(g, ws[t]) + Left(g, w)
  {
    if t > 0 {
      LeftUpdate(g, ws[1..], t - 1, w);
      assert ws[t := w][1..] == ws[1..][t - 1 := w];
    } else {
      assert ws[t := w][1..] == ws[1..];
    }
  }

  predicate InRange(g: Graph, w: Sweeper) {
    w.src < w.end && !w.phase.Enter? ==> w.j <= |g.edges|
  }

  lemma LeftPositive(g: Graph, w: Sweeper)
    requires InRange(g, w)
    ensures Left(g, w) >= 0
  {
    if w.src < w.end { assert (w.end - w.src) * (7 * |g.edges| + 20) >= 0; }
  }

  lemma {:induction false} AllLeftPositive(g: Graph, ws: seq<Sweeper>)
    requires forall t | 0 <= t < |ws| :: InRange(g, ws[t])
    ensures AllLeft(g, ws) >= 0
  {
    if |ws| > 0 {
      LeftPositive(g, ws[0]);
      AllLeftPositive(g, ws[1..]);
    }
  }

  /** Moving on to the next vertex. */
  lemma NextLess(g: Graph, w: Sweeper, x: Sweeper)
    requires w.src < w.end && x.src == w.src + 1 && x.end == w.end && x.phase.Enter? && InRange(g, w)
    ensures Left(g, x) < Left(g, w)
  {
    assert (w.end - w.src) * (7 * |g.edges| + 20) == (x.end - x.src) * (7 * |g.edges| + 20) + (7 * |g.edges| + 20);
  }

  lemma StepLess(g: Graph, w: Sweeper, x: Sweeper)
    requires w.src < w.end && x.src == w.src && x.end == w.end && InRange(g, w) && !x.phase.Enter? && x.j <= |g.edges|
    requires w.phase.Enter? || (x.j == w.j && Rank(x.phase) < Rank(w.phase)) || (x.j == w.j + 1 && x.phase.Edges?)
    ensures Left(g, x) < Left(g, w)
  {
  }

  // ----- levels only go from infinite to the next level -----

  lemma SeenLater(g: Graph, level: seq<int>, later: seq<int>, src: nat, j: nat)
    requires WellFormed(g) && |level| == |later| == g.n && src < g.n && j <= |g.edges| && SeenTo(g, level, src, j)
    requires forall v | 0 <= v < g.n && level[v] != INFINITE :: later[v] != INFINITE
    ensures SeenTo(g, later, src, j)
  {
  }

  lemma SweeperLater(g: Graph, before: seq<int>, level: seq<int>, later: seq<int>, d: nat, start: nat, w: Sweeper)
    requires WellFormed(g) && |before| == |level| == |later| == g.n && SweeperOk(g, before, level, d, start, w)
    requires forall v | 0 <= v < g.n && level[v] != INFINITE :: later[v] != INFINITE
    ensures SweeperOk(g, before, later, d, start, w)
  {
    forall s | start <= s < w.src ensures Done(g, before, later, d, s) {
      assert Done(g, before, level, d, s);
      if before[s] == d { SeenLater(g, level, later, s, g.index[s + 1]); }
    }
    if w.src < w.end && !w.phase.Enter? { SeenLater(g, level, later, w.src, w.j); }
  }

  /** One thread has moved; the levels have only grown. */
  lemma SweepersUpdate(g: Graph, before: seq<int>, level: seq<int>, later: seq<int>, d: nat, cuts: seq<nat>,
                       ws: seq<Sweeper>, t: nat, x: Sweeper)
    requires WellFormed(g) && |before| == |level| == |later| == g.n && Sweepers(g, before, level, d, cuts, ws)
    requires t < |ws|
    requires forall v | 0 <= v < g.n && level[v] != INFINITE :: later[v] != INFINITE
    requires x.end == ws[t].end && SweeperOk(g, before, later, d, cuts[t], x)
    requires Left(g, x) < Left(g, ws[t])
    ensures Sweepers(g, before, later, d, cuts, ws[t := x]) && 0 <= AllLeft(g, ws[t := x]) < AllLeft(g, ws)
  {
    hide WellFormed, Left, AllLeft, SweeperOk;
    var vs := ws[t := x];
    forall u | 0 <= u < |vs| ensures vs[u].end == cuts[u + 1] && SweeperOk(g, before, later, d, cuts[u], vs[u])
        && InRange(g, vs[u]) {
      if u != t { SweeperLater(g, before, level, later, d, cuts[u], ws[u]); }
      SweeperRange(g, before, later, d, cuts[u], vs[u]);
    }
    LeftUpdate(g, ws, t, x);
    AllLeftPositive(g, vs);
  }

  lemma SweeperRange(g: Graph, before: seq<int>, level: seq<int>, d: nat, start: nat, w: Sweeper)
    requires WellFormed(g) && |before| == |level| == g.n && SweeperOk(g, before, level, d, start, w)
    ensures InRange(g, w)
  {
  }

  /** The target of an edge out of level `d`, when it was infinite at the start of the level. */
  lemma TargetNext(g: Graph, root: nat, before: seq<int>, d: nat, src: nat, j: nat)
    requires WellFormed(g) && root < g.n && Shallow(g, root) && d < INFINITE && Exact(g, root, before, d)
    requires src < g.n && |before| == g.n && before[src] == d && g.index[src] <= j < g.index[src + 1] <= |g.edges|
    requires before[g.edges[j]] == INFINITE
    ensures var v := g.edges[j]; v in Ball(g, root, d + 1) && v !in Ball(g, root, d) && (d + 1) % 65536 == d + 1 < INFINITE
  {
    hide Ball, Shallow, Exact, WellFormed;
    var v := g.edges[j];
    LevelInBall(g, root, before, d, src);
    LevelInBall(g, root, before, d, TargetOf(g, j));
    TargetInBall(g, root, src, j, d);
    RoomForLevel(g, root, v, d);
  }

  function TargetOf(g: Graph, j: nat): (v: nat)
    requires WellFormed(g) && j < |g.edges|
    ensures v < g.n && v == g.edges[j]
  {
    g.edges[j]
  }

  // ----- the end of a sweep -----

  lemma {:induction false} OwnerOf(g: Graph, cuts: seq<nat>, n: nat, s: nat) returns (t: nat)
    requires |cuts| > n > 0 && cuts[0] == 0 && s < cuts[n]
    ensures t < n && cuts[t] <= s < cuts[t + 1]
  {
    if n == 1 || cuts[n - 1] <= s { t := n - 1; } else { t := OwnerOf(g, cuts, n - 1, s); }
  }

  lemma SweepReached(g: Graph, root: nat, before: seq<int>, level: seq<int>, cuts: seq<nat>, ws: seq<Sweeper>, d: nat,
                     v: nat)
    requires WellFormed(g) && root < g.n && d < INFINITE && |before| == |level| == g.n && Cuts(g, cuts)
    requires Exact(g, root, before, d) && Sweepers(g, before, level, d, cuts, ws) && Advanced(g, root, before, level, d)
    requires forall t | 0 <= t < |ws| :: ws[t].src == ws[t].end
    requires v < g.n && v in Ball(g, root, d + 1) && v !in Ball(g, root, d)
    ensures level[v] == d + 1 && before[v] == INFINITE && d + 1 < INFINITE
  {
    BallStep(g, root, d, v);
    var u :| u in Ball(g, root, d) && Edge(g, u, v);
    hide Ball;
    if d > 0 { EdgeBack(g, root, d, u, v); }
    ExactMeans(g, root, before, d, u);
    DistanceIsFirstBall(g, root, u, d);
    DistanceOf(g, root, u, before[u], d);
    var t := OwnerOf(g, cuts, |ws|, u);
    assert SweeperOk(g, before, level, d, cuts[t], ws[t]);
    assert Done(g, before, level, d, u);
    LevelInBall(g, root, before, d, v);
    assert AdvancedAt(g, root, before, level, d, v);
  }

  /** A vertex in the ball of `d` but not before it has distance `d`. */
  lemma DistanceOf(g: Graph, root: nat, u: nat, k: int, d: nat)
    requires WellFormed(g) && root < g.n && 0 <= k && Distance(g, root, u, k) && Distance(g, root, u, d)
    ensures k == d
  {
    SameDistance(g, root, u, k, d);
  }

  lemma SweepDone(g: Graph, root: nat, before: seq<int>, level: seq<int>, cuts: seq<nat>, ws: seq<Sweeper>, d: nat,
                  raised: bool)
    requires WellFormed(g) && root < g.n && d < INFINITE && |before| == |level| == g.n && Cuts(g, cuts)
    requires Exact(g, root, before, d) && Sweepers(g, before, level, d, cuts, ws) && Advanced(g, root, before, level, d)
    requires forall t | 0 <= t < |ws| :: ws[t].src == ws[t].end
    requires Announced(before, level, ws, raised)
    ensures Exact(g, root, level, d + 1)
    ensures raised <==> HasShell(g, root, d + 1)
  {
    hide Ball, Sweepers;
    BallGrows(g, root, d, d + 1);
    forall v | 0 <= v < g.n ensures ExactAt(g, root, level, d + 1, v)
        && (level[v] != before[v] <==> AtDistance(g, root, v, d + 1)) {
      assert ExactAt(g, root, before, d, v) && AdvancedAt(g, root, before, level, d, v);
      DistanceIsFirstBall(g, root, v, d + 1);
      if v in Ball(g, root, d + 1) && v !in Ball(g, root, d) {
        SweepReached(g, root, before, level, cuts, ws, d, v);
      }
    }
    if raised {
      var v: nat :| ChangedAt(before, level, v);
      assert AtDistance(g, root, v, d + 1);
    }
    if HasShell(g, root, d + 1) {
      var v: nat :| AtDistance(g, root, v, d + 1);
      assert v in Vertices(g.n);
      assert ChangedAt(before, level, v);
    }
  }

  // ----- single steps -----

  /** Only levels change from infinite: what was announced or late stays so. */
  lemma AnnouncedStep(before: seq<int>, level: seq<int>, ws: seq<Sweeper>, t: nat, x: Sweeper, raised: bool)
    requires Announced(before, level, ws, raised) && t < |ws| && (Late(ws[t]) ==> Late(x))
    ensures Announced(before, level, ws[t := x], raised)
  {
    var vs := ws[t := x];
    if Changed(before, level) && !raised {
      var u: nat :| u < |ws| && Late(ws[u]);
      assert Late(vs[u]);
    }
  }

  lemma NotAnnounced(before: seq<int>, ws: seq<Sweeper>)
    ensures Announced(before, before, ws, false)
  {
  }

  lemma AllSwept(g: Graph, before: seq<int>, level: seq<int>, d: nat, cuts: seq<nat>, ws: seq<Sweeper>)
    requires WellFormed(g) && |before| == |level| == g.n && Sweepers(g, before, level, d, cuts, ws)
    requires forall t | 0 <= t < |ws| :: ws[t].src >= ws[t].end
    ensures forall t | 0 <= t < |ws| :: ws[t].src == ws[t].end
  {
    forall t | 0 <= t < |ws| ensures ws[t].src == ws[t].end { SweeperFacts(g, before, level, d, cuts, ws, t); }
  }

  lemma OneFacts(g: Graph, before: seq<int>, level: seq<int>, d: nat, start: nat, w: Sweeper)
    requires WellFormed(g) && |before| == |level| == g.n && SweeperOk(g, before, level, d, start, w)
    ensures start <= w.src <= w.end <= g.n && |g.index| == g.n + 1
    ensures w.src < w.end && !w.phase.Enter? ==>
      before[w.src] == d && g.index[w.src] <= w.j <= g.index[w.src + 1] <= |g.edges|
      && (w.j < g.index[w.src + 1] ==> g.edges[w.j] < g.n)
      && (!w.phase.Edges? ==> w.j < g.index[w.src + 1] && InPhase(g, before, level, g.edges[w.j], w.phase))
  {
  }

  lemma SweeperFacts(g: Graph, before: seq<int>, level: seq<int>, d: nat, cuts: seq<nat>, ws: seq<Sweeper>, t: nat)
    requires WellFormed(g) && |before| == |level| == g.n && Sweepers(g, before, level, d, cuts, ws) && t < |ws|
    ensures t + 1 < |cuts| && SweeperOk(g, before, level, d, cuts[t], ws[t])
    ensures cuts[t] <= ws[t].src <= ws[t].end <= g.n && |g.index| == g.n + 1
  {
  }

  /** The thread leaves a vertex: it is not of this level, or its edges are done. */
  lemma LeaveOk(g: Graph, before: seq<int>, level: seq<int>, d: nat, start: nat, w: Sweeper)
    requires WellFormed(g) && |before| == |level| == g.n && SweeperOk(g, before, level, d, start, w) && w.src < w.end
    requires if w.phase.Enter? then before[w.src] != d else w.phase.Edges? && w.j == g.index[w.src + 1]
    ensures SweeperOk(g, before, level, d, start, Sweeper(w.src + 1, 0, w.end, Enter))
    ensures Left(g, Sweeper(w.src + 1, 0, w.end, Enter)) < Left(g, w)
  {
    hide Left;
    var x := Sweeper(w.src + 1, 0, w.end, Enter);
    assert g.index[w.src + 1] <= g.index[g.n];
    forall s | start <= s < x.src
      ensures Done(g, before, level, d, s)
    {
      if s < w.src { assert Done(g, before, level, d, s); }
    }
    NextLess(g, w, x);
  }

  lemma OpenOk(g: Graph, before: seq<int>, level: seq<int>, d: nat, start: nat, w: Sweeper)
    requires WellFormed(g) && |before| == |level| == g.n && SweeperOk(g, before, level, d, start, w)
    requires w.src < w.end && w.phase.Enter? && before[w.src] == d
    ensures g.index[w.src] <= |g.edges|
    ensures SweeperOk(g, before, level, d, start, Sweeper(w.src, g.index[w.src], w.end, Edges))
    ensures Left(g, Sweeper(w.src, g.index[w.src], w.end, Edges)) < Left(g, w)
  {
    assert g.index[w.src] <= g.index[w.src + 1] <= g.index[g.n];
    StepLess(g, w, Sweeper(w.src, g.index[w.src], w.end, Edges));
  }

  /** The next edge of the vertex, the target having a level. */
  lemma EdgeOk(g: Graph, before: seq<int>, level: seq<int>, d: nat, start: nat, w: Sweeper)
    requires WellFormed(g) && |before| == |level| == g.n && SweeperOk(g, before, level, d, start, w)
    requires w.src < w.end && !w.phase.Enter? && w.j < g.index[w.src + 1] && level[TargetOf(g, w.j)] != INFINITE
    ensures SweeperOk(g, before, level, d, start, w.(j := w.j + 1, phase := Edges))
    ensures Left(g, w.(j := w.j + 1, phase := Edges)) < Left(g, w)
  {
    StepLess(g, w, w.(j := w.j + 1, phase := Edges));
  }

  /** Going on to a later phase of the same edge. */
  lemma PhaseOk(g: Graph, before: seq<int>, level: seq<int>, d: nat, start: nat, w: Sweeper, phase: Phase)
    requires WellFormed(g) && |before| == |level| == g.n && SweeperOk(g, before, level, d, start, w)
    requires w.src < w.end && !w.phase.Enter? && w.j < g.index[w.src + 1]
    requires InPhase(g, before, level, TargetOf(g, w.j), phase)
    requires !phase.Enter? && Rank(phase) < Rank(w.phase)
    ensures SweeperOk(g, before, level, d, start, w.(phase := phase)) && Left(g, w.(phase := phase)) < Left(g, w)
  {
    StepLess(g, w, w.(phase := phase));
  }

  lemma StoreFits(g: Graph, bitmap: seq<set<nat>>, level: seq<int>, trg: nat, word: set<nat>)
    requires BitsFit(g, bitmap, level) && trg < g.n && level[trg] != INFINITE && WordFits(g, level, trg / 64, word)
    ensures trg / 64 < |bitmap| && BitsFit(g, bitmap[trg / 64 := word + {trg % 64}], level)
  {
    BitInside(g.n, trg);
    var later := bitmap[trg / 64 := word + {trg % 64}];
    forall v: nat | v < g.n ensures BitFits(g, later, level, v) {
      BitInside(g.n, v);
      assert BitFits(g, bitmap, level, v);
    }
  }

  lemma LoadFits(g: Graph, bitmap: seq<set<nat>>, level: seq<int>, trg: nat)
    requires BitsFit(g, bitmap, level) && trg < g.n
    ensures trg / 64 < |bitmap| && WordFits(g, level, trg / 64, bitmap[trg / 64])
    ensures GetBit(bitmap, trg) ==> level[trg] != INFINITE
  {
    BitInside(g.n, trg);
    forall v: nat | v < g.n && v / 64 == trg / 64 && v % 64 in bitmap[trg / 64] ensures level[v] != INFINITE {
      assert BitFits(g, bitmap, level, v);
    }
    assert BitFits(g, bitmap, level, trg);
  }

  lemma BitsLater(g: Graph, bitmap: seq<set<nat>>, level: seq<int>, later: seq<int>)
    requires BitsFit(g, bitmap, level) && |later| == g.n
    requires forall v | 0 <= v < g.n && level[v] != INFINITE :: later[v] != INFINITE
    ensures BitsFit(g, bitmap, later)
  {
    forall v: nat | v < g.n ensures BitFits(g, bitmap, later, v) { assert BitFits(g, bitmap, level, v); }
  }

  /** Writing the next level into a vertex that was infinite when the sweep began, even if another thread
      has already done so. */
  lemma WriteLevelOk(g: Graph, root: nat, before: seq<int>, level: seq<int>, d: nat, v: nat)
    requires WellFormed(g) && root < g.n && |before| == |level| == g.n && v < g.n && Advanced(g, root, before, level, d)
    requires before[v] == INFINITE && v in Ball(g, root, d + 1) && v !in Ball(g, root, d) && d + 1 < INFINITE
    ensures Advanced(g, root, before, level[v := d + 1], d) && ChangedAt(before, level[v := d + 1], v)
    ensures forall u | 0 <= u < g.n && level[u] != INFINITE :: level[v := d + 1][u] != INFINITE
  {
    hide Ball, WellFormed;
    var later := level[v := d + 1];
    forall u | 0 <= u < g.n
      ensures AdvancedAt(g, root, before, later, d, u)
    {
      assert AdvancedAt(g, root, before, level, d, u);
    }
  }

  lemma SameLevel(g: Graph, root: nat, before: seq<int>, level: seq<int>, d: nat, v: nat)
    requires WellFormed(g) && root < g.n && |before| == |level| == g.n && v < g.n && Advanced(g, root, before, level, d)
    ensures (level[v] == d && d < INFINITE ==> before[v] == d) && (before[v] == d && d < INFINITE ==> level[v] == d)
    ensures level[v] == INFINITE ==> before[v] == INFINITE
  {
    assert AdvancedAt(g, root, before, level, d, v);
    hide Ball, WellFormed;
  }

  method StartThreads(g: Graph, ghost before: seq<int>, ghost d: nat, cuts: seq<nat>) returns (ws: seq<Sweeper>)
    requires WellFormed(g) && |before| == g.n && Cuts(g, cuts)
    ensures Sweepers(g, before, before, d, cuts, ws) && !SomeLate(ws) && AllLeft(g, ws) >= 0
  {
    ws := [];
    var t := 0;
    while t < |cuts| - 1
      invariant 0 <= t <= |cuts| - 1 && |ws| == t
      invariant forall u | 0 <= u < t :: ws[u] == Sweeper(cuts[u], 0, cuts[u + 1], Enter)
    {
      ws := ws + [Sweeper(cuts[t], 0, cuts[t + 1], Enter)];
      t := t + 1;
    }
    FreshSweepers(g, before, d, cuts, ws);
  }

  lemma FreshSweepers(g: Graph, before: seq<int>, d: nat, cuts: seq<nat>, ws: seq<Sweeper>)
    requires WellFormed(g) && |before| == g.n && Cuts(g, cuts) && |ws| == |cuts| - 1
    requires forall u | 0 <= u < |ws| :: ws[u] == Sweeper(cuts[u], 0, cuts[u + 1], Enter)
    ensures Sweepers(g, before, before, d, cuts, ws) && !SomeLate(ws) && AllLeft(g, ws) >= 0
  {
    hide WellFormed, AllLeft, Left;
    forall u | 0 <= u < |ws| ensures InRange(g, ws[u]) && !Late(ws[u]) && ws[u].end == cuts[u + 1]
        && SweeperOk(g, before, before, d, cuts[u], ws[u]) {
      assert ws[u] == Sweeper(cuts[u], 0, cuts[u + 1], Enter);
    }
    AllLeftPositive(g, ws);
  }

  /** One atomic step of a thread: a read or a write of one level, one bitmap word, or the shared flag. */
  method StepThread(g: Graph, ghost root: nat, level: array<int>, bitmap: array<set<nat>>, d: nat,
                    ghost before: seq<int>, ghost start: nat, w: Sweeper)
      returns (x: Sweeper, raise: bool)
    requires WellFormed(g) && root < g.n && Shallow(g, root) && d < INFINITE && |before| == level.Length == g.n
    requires Exact(g, root, before, d) && Advanced(g, root, before, level[..], d) && BitsFit(g, bitmap[..], level[..])
    requires SweeperOk(g, before, level[..], d, start, w) && w.src < w.end
    modifies level, bitmap
    ensures Advanced(g, root, before, level[..], d) && BitsFit(g, bitmap[..], level[..])
    ensures forall v | 0 <= v < g.n && old(level[..])[v] != INFINITE :: level[..][v] != INFINITE
    ensures SweeperOk(g, before, level[..], d, start, x) && x.end == w.end && Left(g, x) < Left(g, w)
    ensures Steps(before, old(level[..]), level[..], w, x, raise)
  {
    hide Ball, Exact, Shallow, Advanced, WellFormed, Left, SweeperOk, BitsFit, WordFits;
    ghost var now := level[..];
    OneFacts(g, before, now, d, start, w);
    x, raise := w, false;
    if w.phase.Enter? {
      SameLevel(g, root, before, now, d, w.src);
      if level[w.src] != d {
        LeaveOk(g, before, now, d, start, w);
        x := Sweeper(w.src + 1, 0, w.end, Enter);
      } else {
        OpenOk(g, before, now, d, start, w);
        x := Sweeper(w.src, g.index[w.src], w.end, Edges);
      }
      return;
    }
    if w.phase.Edges? && w.j == g.index[w.src + 1] {
      LeaveOk(g, before, now, d, start, w);
      x := Sweeper(w.src + 1, 0, w.end, Enter);
      return;
    }
    var trg := g.edges[w.j];
    LoadFits(g, bitmap[..], now, trg);
    SameLevel(g, root, before, now, d, trg);
    match w.phase {
      case Edges =>
        if trg % 64 in bitmap[trg / 64] {
          EdgeOk(g, before, now, d, start, w);
          x := w.(j := w.j + 1, phase := Edges);
        } else {
          PhaseOk(g, before, now, d, start, w, ReadLevel);
          x := w.(phase := ReadLevel);
        }
      case ReadLevel =>
        if level[trg] == INFINITE {
          PhaseOk(g, before, now, d, start, w, WriteLevel);
          x := w.(phase := WriteLevel);
        } else {
          EdgeOk(g, before, now, d, start, w);
          x := w.(j := w.j + 1, phase := Edges);
        }
      case WriteLevel =>
        TargetNext(g, root, before, d, w.src, w.j);
        WriteLevelOk(g, root, before, now, d, trg);
        level[trg] := (d + 1) % 65536;
        assert level[..] == now[trg := d + 1];
        BitsLater(g, bitmap[..], now, level[..]);
        SweeperLater(g, before, now, level[..], d, start, w);
        PhaseOk(g, before, level[..], d, start, w, LoadWord);
        x := w.(phase := LoadWord);
      case LoadWord =>
        PhaseOk(g, before, now, d, start, w, StoreWord(bitmap[trg / 64]));
        x := w.(phase := StoreWord(bitmap[trg / 64]));
      case StoreWord(word) =>
        StoreFits(g, bitmap[..], now, trg, word);
        bitmap[trg / 64] := word + {trg % 64};
        PhaseOk(g, before, now, d, start, w, Raise);
        x := w.(phase := Raise);
      case Raise =>
        raise := true;
        assert ChangedAt(before, now, trg);
        EdgeOk(g, before, now, d, start, w);
        x := w.(j := w.j + 1, phase := Edges);
      case Enter =>
    }
  }

  /** What a step says about announcements: a write makes the thread late, only the flag ends that. */
  ghost predicate Steps(before: seq<int>, level: seq<int>, later: seq<int>, w: Sweeper, x: Sweeper, raise: bool) {
    if w.phase.WriteLevel? then Late(x) && !raise
    else if raise then Changed(before, later)
    else later == level && (Late(w) ==> Late(x))
  }

  lemma StepAnnounced(before: seq<int>, level: seq<int>, later: seq<int>, ws: seq<Sweeper>, t: nat, x: Sweeper,
                      raised: bool, raise: bool)
    requires t < |ws| && Announced(before, level, ws, raised) && Steps(before, level, later, ws[t], x, raise)
    requires |before| == |level| == |later|
    requires forall v | 0 <= v < |level| :: later[v] == level[v] || ChangedAt(before, later, v)
    ensures Announced(before, later, ws[t := x], raised || raise)
  {
    var vs := ws[t := x];
    if ws[t].phase.WriteLevel? {
      assert Late(vs[t]);
      if Changed(before, level) {
        var v: nat :| ChangedAt(before, level, v);
        assert ChangedAt(before, later, v);
      }
    } else if !raise {
      AnnouncedStep(before, level, ws, t, x, raised);
    }
  }

  /** One sweep in any interleaving; `raised` tells whether a vertex was found. */
  method RunSweep(g: Graph, ghost root: nat, level: array<int>, bitmap: array<set<nat>>, d: nat, cuts: seq<nat>)
    returns (raised: bool)
    requires WellFormed(g) && root < g.n && Shallow(g, root) && d < INFINITE && Cuts(g, cuts)
    requires Exact(g, root, level[..], d) && BitsFit(g, bitmap[..], level[..])
    modifies level, bitmap
    ensures Exact(g, root, level[..], d + 1) && BitsFit(g, bitmap[..], level[..])
    ensures raised <==> HasShell(g, root, d + 1)
  {
    hide Ball, Exact, Shallow, Advanced, WellFormed, Sweepers, AllLeft, Left, SweeperOk, Announced, BitsFit,
         HasShell, Cuts, Steps, Late;
    ghost var before := level[..];
    LevelLength(g, root, before, d);
    StartsAdvanced(g, root, before, d);
    var ws := StartThreads(g, before, d, cuts);
    raised := false;
    NotAnnounced(before, ws);
    while exists t :: 0 <= t < |ws| && ws[t].src < ws[t].end
      invariant level.Length == g.n && Sweepers(g, before, level[..], d, cuts, ws)
      invariant Advanced(g, root, before, level[..], d)
      invariant BitsFit(g, bitmap[..], level[..]) && Announced(before, level[..], ws, raised) && AllLeft(g, ws) >= 0
      decreases AllLeft(g, ws)
    {
      var t: nat :| 0 <= t < |ws| && ws[t].src < ws[t].end;
      ghost var now := level[..];
      SweeperFacts(g, before, now, d, cuts, ws, t);
      var x, raise := StepThread(g, root, level, bitmap, d, before, cuts[t], ws[t]);
      SweepersUpdate(g, before, now, level[..], d, cuts, ws, t, x);
      NeverBack(g, root, before, now, level[..], d);
      StepAnnounced(before, now, level[..], ws, t, x, raised, raise);
      raised := raised || raise;
      ws := ws[t := x];
    }
    AllSwept(g, before, level[..], d, cuts, ws);
    SweepDone(g, root, before, level[..], cuts, ws, d, raised);
  }

  lemma NeverBack(g: Graph, root: nat, before: seq<int>, level: seq<int>, later: seq<int>, d: nat)
    requires WellFormed(g) && root < g.n && |level| == g.n
    requires Advanced(g, root, before, level, d) && Advanced(g, root, before, later, d)
    requires forall v | 0 <= v < g.n && level[v] != INFINITE :: later[v] != INFINITE
    ensures |before| == |later| == g.n && forall v: nat | v < g.n :: later[v] == level[v] || ChangedAt(before, later, v)
  {
    hide Ball, WellFormed;
    forall v: nat | v < g.n ensures later[v] == level[v] || ChangedAt(before, later, v) {
      assert AdvancedAt(g, root, before, level, d, v) && AdvancedAt(g, root, before, later, d, v);
    }
  }

  // ----- the whole search -----

  /** The dense search. The caller has set the root's level (and perhaps its bit). */
  method RunBfs(g: Graph, ghost root: nat, level: array<int>, bitmap: array<set<nat>>, cuts: seq<nat>)
    returns (last: nat)
    requires WellFormed(g) && root < g.n && Shallow(g, root) && level.Length == g.n
    requires bitmap.Length == BitmapSize(g.n) && Cuts(g, cuts)
    requires level[root] == 0 && forall v | 0 <= v < g.n && v != root :: level[v] == INFINITE
    requires BitsFit(g, bitmap[..], level[..])
    modifies level, bitmap
    ensures forall v: nat | v < g.n :: level[v] != INFINITE ==> 0 <= level[v] <= last && Distance(g, root, v, level[v])
    ensures forall v: nat, k: nat | v < g.n && Distance(g, root, v, k) :: level[v] == k
    ensures last < INFINITE && exists v: nat :: v < g.n && level[v] == last
  {
    hide Ball, Shallow, Distance, WellFormed, BitsFit, Cuts, Exact, HasShell;
    StartExact(g, root, level[..]);
    last := 0;
    RootShell(g, root);
    while true
      invariant level.Length == g.n && last < INFINITE && HasShell(g, root, last)
      invariant Exact(g, root, level[..], last) && BitsFit(g, bitmap[..], level[..])
      decreases g.n - |Ball(g, root, last)|
    {
      var visitedNewVertex := RunSweep(g, root, level, bitmap, last, cuts);
      if !visitedNewVertex {
        DenseDone(g, root, level[..], last);
        break;
      }
      NextShell(g, root, last);
      last := last + 1;
    }
  }

  lemma RootShell(g: Graph, root: nat)
    requires WellFormed(g) && root < g.n
    ensures HasShell(g, root, 0)
  {
    hide WellFormed;
    assert AtDistance(g, root, root, 0);
  }

  lemma NextShell(g: Graph, root: nat, d: nat)
    requires WellFormed(g) && root < g.n && Shallow(g, root) && HasShell(g, root, d + 1) && d < INFINITE
    ensures d + 1 < INFINITE && |Ball(g, root, d)| < |Ball(g, root, d + 1)| <= g.n
  {
    hide WellFormed, Shallow, Ball;
    var v: nat :| AtDistance(g, root, v, d + 1);
    RoomForLevel(g, root, v, d);
    BallGrows(g, root, d, d + 1);
    Smaller(Ball(g, root, d), Ball(g, root, d + 1));
    Smaller(Ball(g, root, d + 1), Vertices(g.n));
  }

  lemma DenseDone(g: Graph, root: nat, level: seq<int>, d: nat)
    requires WellFormed(g) && root < g.n && d < INFINITE
    requires HasShell(g, root, d) && !HasShell(g, root, d + 1) && Exact(g, root, level, d + 1)
    ensures |level| == g.n
    ensures forall v: nat | v < g.n :: level[v] != INFINITE ==> 0 <= level[v] <= d && Distance(g, root, v, level[v])
    ensures forall v: nat, k: nat | v < g.n && Distance(g, root, v, k) :: level[v] == k
    ensures exists v: nat :: v < g.n && level[v] == d
  {
    hide Ball, Distance, WellFormed, Exact;
    forall v: nat | v in Ball(g, root, d + 1) ensures v in Ball(g, root, d) { assert !AtDistance(g, root, v, d + 1); }
    LevelLength(g, root, level, d + 1);
    forall v: nat | v < g.n ensures level[v] != INFINITE ==> 0 <= level[v] <= d && Distance(g, root, v, level[v]) {
      ExactMeans(g, root, level, d + 1, v);
      BallGrows(g, root, d, d + 1);
      if level[v] != INFINITE { DistanceIsFirstBall(g, root, v, level[v]); }
    }
    forall v: nat, k: nat | v < g.n && Distance(g, root, v, k) ensures level[v] == k {
      DistanceIsFirstBall(g, root, v, k);
      BallFull(g, root, d, k);
      BallGrows(g, root, d, d + 1);
      ExactMeans(g, root, level, d + 1, v);
      SameDistance(g, root, v, k, level[v]);
    }
    var u: nat :| AtDistance(g, root, u, d);
    ShellLevel(g, root, level, d, u);
  }

  lemma ShellLevel(g: Graph, root: nat, level: seq<int>, d: nat, u: nat)
    requires WellFormed(g) && root < g.n && d < INFINITE && AtDistance(g, root, u, d) && Exact(g, root, level, d + 1)
    ensures u < g.n == |level| && level[u] == d
  {
    hide Ball, Distance, WellFormed;
    assert u in Vertices(g.n);
    DistanceIsFirstBall(g, root, u, d);
    BallGrows(g, root, d, d + 1);
    ExactMeans(g, root, level, d + 1, u);
    SameDistance(g, root, u, d, level[u]);
  }

  /** Whatever the schedule, the thread count or the form of the search: two level arrays that meet the
      contract of either `RunBfs` are equal. */
  lemma SameLevels(g: Graph, root: nat, a: seq<int>, b: seq<int>)
    requires WellFormed(g) && root < g.n && |a| == |b| == g.n
    requires forall v: nat | v < g.n :: a[v] != INFINITE ==> 0 <= a[v] && Distance(g, root, v, a[v])
    requires forall v: nat, k: nat | v < g.n && Distance(g, root, v, k) :: a[v] == k
    requires forall v: nat | v < g.n :: b[v] != INFINITE ==> 0 <= b[v] && Distance(g, root, v, b[v])
    requires forall v: nat, k: nat | v < g.n && Distance(g, root, v, k) :: b[v] == k
    ensures a == b
  {
    hide Distance, WellFormed;
    forall v: nat | v < g.n ensures a[v] == b[v] {
      if a[v] != INFINITE { assert Distance(g, root, v, a[v]); }
      if b[v] != INFINITE { assert Distance(g, root, v, b[v]); }
    }
  }
}
