/** The level-synchronous parallel search: worker threads share the level array and take vertices with a
    compare-and-swap. A scheduler picks any unfinished worker for every single step, so what is proved
    holds for every interleaving. */
module Bfs {
  import opened Graphs

  /** Levels are 16-bit; the largest value stands for "not reached". */
  const INFINITE := 65535

  /** Every vertex of the ball has its distance as level, every other vertex is infinite. */
  ghost predicate Exact(g: Graph, root: nat, level: seq<int>, d: nat)
    requires WellFormed(g) && root < g.n
  {
    |level| == g.n && forall v | 0 <= v < g.n :: ExactAt(g, root, level, d, v)
  }

  ghost predicate ExactAt(g: Graph, root: nat, level: seq<int>, d: nat, v: nat)
    requires WellFormed(g) && root < g.n && v < g.n == |level|
  {
    if v in Ball(g, root, d) then 0 <= level[v] <= d && Distance(g, root, v, level[v]) else level[v] == INFINITE
  }

  /** The frontier of level `d`: the vertices at distance `d`, each once. */
  ghost predicate Frontier(g: Graph, root: nat, frontier: seq<nat>, d: nat)
    requires WellFormed(g) && root < g.n
  {
    forall v: nat {:trigger multiset(frontier)[v]} ::
        multiset(frontier)[v] == if AtDistance(g, root, v, d) then 1 else 0
  }

  /** Words of 64 bits. */
  function BitmapSize(size: nat): nat {
    if size == 0 then 0 else (size - 1) / 64 + 1
  }

  predicate AtDistance(g: Graph, root: nat, v: nat, d: nat)
    requires WellFormed(g) && root < g.n
  {
    v in Ball(g, root, d) && (d > 0 ==> v !in Ball(g, root, d - 1))
  }

  /** No vertex is further from the root than the largest level. */
  predicate Shallow(g: Graph, root: nat)
    requires WellFormed(g) && root < g.n
  {
    Ball(g, root, INFINITE) <= Ball(g, root, INFINITE - 1)
  }

  /** Exactly the graphs whose distances all have a level. */
  lemma ShallowMeans(g: Graph, root: nat)
    requires WellFormed(g) && root < g.n
    ensures Shallow(g, root) <==> forall v: nat, k: nat | v < g.n && Distance(g, root, v, k) :: k < INFINITE
  {
    hide Ball, Distance, WellFormed;
    if Shallow(g, root) {
      forall v: nat, k: nat | v < g.n && Distance(g, root, v, k) ensures k < INFINITE {
        DistanceIsFirstBall(g, root, v, k);
        BallFull(g, root, INFINITE - 1, k);
        if k >= INFINITE { BallGrows(g, root, INFINITE - 1, k - 1); }
      }
    } else {
      var v :| v in Ball(g, root, INFINITE) && v !in Ball(g, root, INFINITE - 1);
      DistanceIsFirstBall(g, root, v, INFINITE);
      assert v in Vertices(g.n);
    }
  }

  /** A worker is at edge `j` of frontier slot `i`; `local` are the vertices it has taken. */
  datatype Worker = Worker(i: nat, j: nat, end: nat, local: seq<nat>, merged: bool)

  predicate SeenTo(g: Graph, level: seq<int>, src: nat, j: nat)
    requires WellFormed(g) && |level| == g.n && src < g.n && j <= |g.edges|
  {
    forall k | g.index[src] <= k < j :: level[g.edges[k]] != INFINITE
  }

  predicate InGraph(g: Graph, frontier: seq<nat>) {
    forall i | 0 <= i < |frontier| :: frontier[i] < g.n
  }

  /** Everything before the worker's position has been tried. */
  predicate WorkerOk(g: Graph, frontier: seq<nat>, level: seq<int>, start: nat, w: Worker)
    requires WellFormed(g) && |level| == g.n && InGraph(g, frontier)
  {
    && start <= w.i <= w.end <= |frontier|
    && (w.merged ==> w.i == w.end && w.local == [])
    && (forall i | start <= i < w.i :: g.index[frontier[i] + 1] <= |g.edges| && SeenTo(g, level, frontier[i], g.index[frontier[i] + 1]))
    && (w.i < w.end ==>
        g.index[frontier[w.i]] <= w.j <= g.index[frontier[w.i] + 1] <= |g.edges|
            && SeenTo(g, level, frontier[w.i], w.j))
  }

  /** What the other steps of a level may have done to the levels. */
  ghost predicate Advanced(g: Graph, root: nat, before: seq<int>, level: seq<int>, d: nat)
    requires WellFormed(g) && root < g.n
  {
    |before| == |level| == g.n && forall v | 0 <= v < g.n :: AdvancedAt(g, root, before, level, d, v)
  }

  predicate AdvancedAt(g: Graph, root: nat, before: seq<int>, level: seq<int>, d: nat, v: nat)
    requires WellFormed(g) && root < g.n && v < g.n == |before| == |level|
  {
    level[v] == before[v]
    || (before[v] == INFINITE && level[v] == d + 1 < INFINITE && v in Ball(g, root, d + 1) && v !in Ball(g, root, d))
  }

  function Locals(ws: seq<Worker>): multiset<nat> {
    if |ws| == 0 then multiset{} else multiset(ws[0].local) + Locals(ws[1..])
  }

  function Cost(g: Graph, w: Worker): int {
    if w.merged then 0 else 1 + (w.end - w.i) * (|g.edges| + 2) + (if w.i < w.end then |g.edges| - w.j else 0)
  }

  function Costs(g: Graph, ws: seq<Worker>): int {
    if |ws| == 0 then 0 else Cost(g, ws[0]) + Costs(g, ws[1..])
  }

  lemma Regroup(a: multiset<nat>, b: multiset<nat>, c: multiset<nat>, d: multiset<nat>, e: multiset<nat>)
    requires d + b == e + c
    ensures (a + d) + b == (a + e) + c
  {
    assert (a + d) + b == a + (d + b);
    assert (a + e) + c == a + (e + c);
  }

  lemma Cancel(a: multiset<nat>, b: multiset<nat>, c: multiset<nat>)
    requires a + c == b + c
    ensures a == b
  {
    forall x ensures a[x] == b[x] { assert (a + c)[x] == (b + c)[x]; }
  }

  lemma {:induction false} LocalsUpdate(ws: seq<Worker>, t: nat, w: Worker)
    requires t < |ws|
    ensures Locals(ws[t := w]) + multiset(ws[t].local) == Locals(ws) + multiset(w.local)
  {
    var vs := ws[t := w];
    if t > 0 {
      LocalsUpdate(ws[1..], t - 1, w);
      assert vs[1..] == ws[1..][t - 1 := w] && vs[0] == ws[0];
      Regroup(multiset(ws[0].local), multiset(ws[t].local), multiset(w.local), Locals(vs[1..]), Locals(ws[1..]));
    } else {
      assert vs[1..] == ws[1..] && vs[0] == w;
      var a, b, c := multiset(w.local), multiset(ws[0].local), Locals(ws[1..]);
      assert (a + c) + b == (b + c) + a;
    }
  }

  lemma {:induction false} CostsUpdate(g: Graph, ws: seq<Worker>, t: nat, w: Worker)
    requires t < |ws|
    ensures Costs(g, ws[t := w]) == Costs(g, ws) - Cost(g, ws[t]) + Cost(g, w)
  {
    if t > 0 {
      CostsUpdate(g, ws[1..], t - 1, w);
      assert ws[t := w][1..] == ws[1..][t - 1 := w];
    } else {
      assert ws[t := w][1..] == ws[1..];
    }
  }

  /** Taken vertices: each once, and exactly those whose level was set. */
  ghost predicate TakenOnce(before: seq<int>, level: seq<int>, taken: multiset<nat>)
    requires |before| == |level|
  {
    forall v: nat {:trigger taken[v]} :: taken[v] == if v < |level| && level[v] != before[v] then 1 else 0
  }

  ghost predicate Workers(g: Graph, frontier: seq<nat>, level: seq<int>, starts: seq<nat>, ws: seq<Worker>)
    requires WellFormed(g) && |level| == g.n && InGraph(g, frontier)
  {
    |starts| == |ws| && forall t | 0 <= t < |ws| :: WorkerOk(g, frontier, level, starts[t], ws[t])
  }

  /** The chunks partition the frontier: every slot belongs to the chunk of exactly one thread. */
  ghost predicate Chunked(frontier: seq<nat>, starts: seq<nat>, ws: seq<Worker>) {
    && |starts| == |ws|
    && (forall i | 0 <= i < |frontier| :: Assigned(starts, ws, i))
    && (forall t: nat, u: nat, i: nat | i < |frontier| && Mine(starts, ws, t, i) && Mine(starts, ws, u, i) :: t == u)
  }

  predicate Mine(starts: seq<nat>, ws: seq<Worker>, t: nat, i: nat)
    requires |starts| == |ws|
  {
    t < |ws| && starts[t] <= i < ws[t].end
  }

  predicate Assigned(starts: seq<nat>, ws: seq<Worker>, i: nat)
    requires |starts| == |ws|
  {
    exists t: nat | t < |ws| :: Mine(starts, ws, t, i)
  }

  // ----- single steps -----

  /** Taking a vertex keeps what the other workers have seen. */
  lemma SeenStays(g: Graph, frontier: seq<nat>, level: seq<int>, start: nat, w: Worker, v: nat, x: int)
    requires WellFormed(g) && |level| == g.n && InGraph(g, frontier) && v < g.n
    requires WorkerOk(g, frontier, level, start, w) && x != INFINITE
    ensures WorkerOk(g, frontier, level[v := x], start, w)
  {
    forall i | start <= i < w.i ensures SeenTo(g, level[v := x], frontier[i], g.index[frontier[i] + 1]) {
      assert SeenTo(g, level, frontier[i], g.index[frontier[i] + 1]);
    }
  }

  /** A vertex that a frontier vertex has an edge to is within the next ball. */
  lemma TargetInBall(g: Graph, root: nat, src: nat, j: nat, d: nat)
    requires WellFormed(g) && root < g.n && src in Ball(g, root, d) && src < g.n
    requires g.index[src] <= j < g.index[src + 1] <= |g.edges|
    ensures g.edges[j] in Ball(g, root, d + 1)
  {
    assert Edge(g, src, g.edges[j]);
    assert Into(g, Ball(g, root, d), g.edges[j]);
    BallStep(g, root, d, g.edges[j]);
  }

  lemma EdgeIn(g: Graph, root: nat, d: nat, u: nat, v: nat)
    requires WellFormed(g) && root < g.n && u in Ball(g, root, d) && Edge(g, u, v) && v < g.n
    ensures v in Ball(g, root, d + 1)
  {
    BallStep(g, root, d, v);
  }

  lemma EdgeBack(g: Graph, root: nat, d: nat, u: nat, v: nat)
    requires WellFormed(g) && root < g.n && d > 0 && Edge(g, u, v) && v < g.n
    ensures v !in Ball(g, root, d) ==> u !in Ball(g, root, d - 1)
  {
    hide Ball, Edge;
    if u in Ball(g, root, d - 1) { EdgeIn(g, root, d - 1, u, v); }
  }

  lemma LevelInBall(g: Graph, root: nat, level: seq<int>, d: nat, v: nat)
    requires WellFormed(g) && root < g.n && Exact(g, root, level, d) && v < g.n && d < INFINITE
    ensures level[v] == INFINITE <==> v !in Ball(g, root, d)
  {
    assert ExactAt(g, root, level, d, v);
  }

  /** The level a winning compare-and-swap writes is below the largest one. */
  lemma RoomForLevel(g: Graph, root: nat, v: nat, d: nat)
    requires WellFormed(g) && root < g.n && Shallow(g, root) && d < INFINITE
    requires v in Ball(g, root, d + 1) && v !in Ball(g, root, d)
    ensures d + 1 < INFINITE
  {
    hide Ball;
    assert v in Ball(g, root, INFINITE) ==> v in Ball(g, root, INFINITE - 1);
  }

  lemma InBallOf(g: Graph, root: nat, frontier: seq<nat>, d: nat, i: nat)
    requires WellFormed(g) && root < g.n && Frontier(g, root, frontier, d) && i < |frontier|
    ensures frontier[i] in Ball(g, root, d) && frontier[i] < g.n
  {
    assert frontier[i] in multiset(frontier);
    assert multiset(frontier)[frontier[i]] > 0;
    assert Ball(g, root, d) <= Vertices(g.n);
  }

  lemma FrontierInGraph(g: Graph, root: nat, frontier: seq<nat>, d: nat)
    requires WellFormed(g) && root < g.n && Frontier(g, root, frontier, d)
    ensures InGraph(g, frontier)
  {
    forall i | 0 <= i < |frontier| ensures frontier[i] < g.n { InBallOf(g, root, frontier, d, i); }
  }

  // ----- the end of a level -----

  /** When all workers are done, every neighbour of the frontier has been reached. */
  lemma AllSeen(g: Graph, root: nat, frontier: seq<nat>, level: seq<int>, starts: seq<nat>, ws: seq<Worker>, d: nat,
                u: nat, v: nat)
    requires WellFormed(g) && root < g.n && |level| == g.n && InGraph(g, frontier)
    requires Workers(g, frontier, level, starts, ws) && Chunked(frontier, starts, ws)
    requires forall t | 0 <= t < |ws| :: ws[t].merged
    requires u in frontier && Edge(g, u, v) && v < g.n
    ensures level[v] != INFINITE
  {
    var i :| 0 <= i < |frontier| && frontier[i] == u;
    assert Assigned(starts, ws, i);
    var t: nat :| t < |ws| && Mine(starts, ws, t, i);
    assert WorkerOk(g, frontier, level, starts[t], ws[t]);
    assert SeenTo(g, level, frontier[i], g.index[u + 1]);
  }

  lemma InFrontier(g: Graph, root: nat, frontier: seq<nat>, d: nat, u: nat)
    requires WellFormed(g) && root < g.n && Frontier(g, root, frontier, d) && AtDistance(g, root, u, d)
    ensures u in frontier
  {
    assert multiset(frontier)[u] == 1;
    assert u in multiset(frontier);
  }

  /** Every vertex of the next ball has a level. */
  lemma NextReached(g: Graph, root: nat, frontier: seq<nat>, before: seq<int>, level: seq<int>, starts: seq<nat>,
                    ws: seq<Worker>, d: nat, v: nat)
    requires WellFormed(g) && root < g.n && d < INFINITE && |level| == g.n && InGraph(g, frontier)
    requires Exact(g, root, before, d) && Frontier(g, root, frontier, d) && Advanced(g, root, before, level, d)
    requires Workers(g, frontier, level, starts, ws) && Chunked(frontier, starts, ws)
    requires forall t | 0 <= t < |ws| :: ws[t].merged
    requires v < g.n && v in Ball(g, root, d + 1) && v !in Ball(g, root, d)
    ensures level[v] == d + 1 && before[v] == INFINITE && d + 1 < INFINITE
  {
    BallStep(g, root, d, v);
    var u :| u in Ball(g, root, d) && Edge(g, u, v);
    hide Ball;
    if d > 0 { EdgeBack(g, root, d, u, v); }
    InFrontier(g, root, frontier, d, u);
    AllSeen(g, root, frontier, level, starts, ws, d, u, v);
    assert AdvancedAt(g, root, before, level, d, v);
    LevelInBall(g, root, before, d, v);
  }

  lemma LevelDone(g: Graph, root: nat, frontier: seq<nat>, before: seq<int>, level: seq<int>, starts: seq<nat>,
                  ws: seq<Worker>, d: nat, next: seq<nat>)
    requires WellFormed(g) && root < g.n && d < INFINITE && |level| == g.n && InGraph(g, frontier)
    requires Exact(g, root, before, d) && Frontier(g, root, frontier, d) && Advanced(g, root, before, level, d)
    requires Workers(g, frontier, level, starts, ws) && Chunked(frontier, starts, ws)
    requires forall t | 0 <= t < |ws| :: ws[t].merged
    requires TakenOnce(before, level, multiset(next))
    ensures Exact(g, root, level, d + 1) && Frontier(g, root, next, d + 1)
  {
    hide Ball, Chunked, Workers;
    BallGrows(g, root, d, d + 1);
    forall v | 0 <= v < g.n ensures ExactAt(g, root, level, d + 1, v)
        && (level[v] != before[v] <==> AtDistance(g, root, v, d + 1)) {
      assert ExactAt(g, root, before, d, v) && AdvancedAt(g, root, before, level, d, v);
      DistanceIsFirstBall(g, root, v, d + 1);
      if v in Ball(g, root, d + 1) && v !in Ball(g, root, d) {
        NextReached(g, root, frontier, before, level, starts, ws, d, v);
      }
    }
    forall v: nat ensures multiset(next)[v] == if AtDistance(g, root, v, d + 1) then 1 else 0 {
      assert Ball(g, root, d + 1) <= Vertices(g.n);
    }
  }

  // ----- what one worker step keeps -----

  lemma LevelLength(g: Graph, root: nat, level: seq<int>, d: nat)
    requires WellFormed(g) && root < g.n && Exact(g, root, level, d)
    ensures |level| == g.n
  {
  }

  lemma StartsAdvanced(g: Graph, root: nat, level: seq<int>, d: nat)
    requires WellFormed(g) && root < g.n && |level| == g.n
    ensures Advanced(g, root, level, level, d) && TakenOnce(level, level, multiset{})
  {
  }

  lemma WorkerFacts(g: Graph, frontier: seq<nat>, level: seq<int>, starts: seq<nat>, ws: seq<Worker>, t: nat)
    requires WellFormed(g) && |level| == g.n && InGraph(g, frontier) && Workers(g, frontier, level, starts, ws)
    requires t < |ws|
    ensures t < |starts| && WorkerOk(g, frontier, level, starts[t], ws[t])
    ensures starts[t] <= ws[t].i <= ws[t].end <= |frontier|
    ensures ws[t].i < ws[t].end ==> var src := frontier[ws[t].i];
      src < g.n && |g.index| == g.n + 1 && g.index[src] <= ws[t].j <= g.index[src + 1] <= |g.edges|
    ensures ws[t].i < ws[t].end && ws[t].j < g.index[frontier[ws[t].i] + 1] ==> g.edges[ws[t].j] < g.n
    ensures ws[t].i + 1 < ws[t].end ==> frontier[ws[t].i + 1] < g.n
  {
  }

  lemma WorkersUpdate(g: Graph, frontier: seq<nat>, level: seq<int>, starts: seq<nat>, ws: seq<Worker>, t: nat,
                      w: Worker)
    requires WellFormed(g) && |level| == g.n && InGraph(g, frontier)
    requires Workers(g, frontier, level, starts, ws) && Chunked(frontier, starts, ws) && t < |ws|
    requires WorkerOk(g, frontier, level, starts[t], w) && w.end == ws[t].end
    ensures Workers(g, frontier, level, starts, ws[t := w]) && Chunked(frontier, starts, ws[t := w])
  {
    hide WorkerOk;
    var vs := ws[t := w];
    forall i: nat | i < |frontier| ensures Assigned(starts, vs, i) {
      assert Assigned(starts, ws, i);
      var u: nat :| u < |ws| && Mine(starts, ws, u, i);
      assert Mine(starts, vs, u, i);
    }
    forall u: nat, v: nat, i: nat | i < |frontier| && Mine(starts, vs, u, i) && Mine(starts, vs, v, i) ensures u == v {
      assert Mine(starts, ws, u, i) && Mine(starts, ws, v, i);
    }
  }

  /** The next edge leads to a vertex that has a level already. */
  lemma PassStep(g: Graph, frontier: seq<nat>, level: seq<int>, starts: seq<nat>, ws: seq<Worker>, t: nat)
    requires WellFormed(g) && |level| == g.n && InGraph(g, frontier)
    requires Workers(g, frontier, level, starts, ws) && Chunked(frontier, starts, ws) && t < |ws| && !ws[t].merged
    requires WorkerOk(g, frontier, level, starts[t], ws[t]) && ws[t].i < ws[t].end
    requires ws[t].j < g.index[frontier[ws[t].i] + 1]
    requires level[g.edges[ws[t].j]] != INFINITE
    ensures var w := ws[t].(j := ws[t].j + 1); var vs := ws[t := w];
      Workers(g, frontier, level, starts, vs) && Chunked(frontier, starts, vs) && 0 <= Costs(g, vs) < Costs(g, ws)
          && Locals(vs) == Locals(ws)
  {
    hide Chunked, Workers, Costs, Locals, InGraph;
    var w := ws[t].(j := ws[t].j + 1);
    WorkerFacts(g, frontier, level, starts, ws, t);
    assert WorkerOk(g, frontier, level, starts[t], w);
    WorkersUpdate(g, frontier, level, starts, ws, t, w);
    CostsUpdate(g, ws, t, w);
    LocalsUpdate(ws, t, w);
    Cancel(Locals(ws[t := w]), Locals(ws), multiset(w.local));
    CostsPositive(g, frontier, level, starts, ws[t := w]);
  }

  /** The edges of a slot are done. */
  lemma SlotStep(g: Graph, frontier: seq<nat>, level: seq<int>, starts: seq<nat>, ws: seq<Worker>, t: nat)
    requires WellFormed(g) && |level| == g.n && InGraph(g, frontier)
    requires Workers(g, frontier, level, starts, ws) && Chunked(frontier, starts, ws) && t < |ws| && !ws[t].merged
    requires WorkerOk(g, frontier, level, starts[t], ws[t]) && ws[t].i < ws[t].end
    requires ws[t].j == g.index[frontier[ws[t].i] + 1]
    ensures var w := ws[t].(i := ws[t].i + 1,
        j := if ws[t].i + 1 < ws[t].end then g.index[frontier[ws[t].i + 1]] else 0);
      var vs := ws[t := w];
      Workers(g, frontier, level, starts, vs) && Chunked(frontier, starts, vs) && 0 <= Costs(g, vs) < Costs(g, ws)
          && Locals(vs) == Locals(ws)
  {
    hide Chunked, Workers, Costs, Locals;
    WorkerFacts(g, frontier, level, starts, ws, t);
    var w := ws[t].(i := ws[t].i + 1, j := if ws[t].i + 1 < ws[t].end then g.index[frontier[ws[t].i + 1]] else 0);
    assert WorkerOk(g, frontier, level, starts[t], w) by { SlotOk(g, frontier, level, starts[t], ws[t], w); }
    hide WorkerOk;
    WorkersUpdate(g, frontier, level, starts, ws, t, w);
    CostsUpdate(g, ws, t, w);
    LocalsUpdate(ws, t, w);
    Cancel(Locals(ws[t := w]), Locals(ws), multiset(w.local));
    SlotCost(g, ws[t], w);
    CostsPositive(g, frontier, level, starts, ws[t := w]);
  }

  lemma SlotOk(g: Graph, frontier: seq<nat>, level: seq<int>, start: nat, w: Worker, x: Worker)
    requires WellFormed(g) && |level| == g.n && InGraph(g, frontier) && WorkerOk(g, frontier, level, start, w)
    requires !w.merged
    requires w.i < w.end && w.j == g.index[frontier[w.i] + 1]
    requires x == w.(i := w.i + 1, j := if w.i + 1 < w.end then g.index[frontier[w.i + 1]] else 0)
    ensures WorkerOk(g, frontier, level, start, x)
  {
    if x.i < x.end {
      var u := frontier[x.i];
      assert u < g.n && g.index[u] <= g.index[u + 1] <= g.index[g.n];
    }
    forall i | start <= i < x.i ensures g.index[frontier[i] + 1] <= |g.edges|
        && SeenTo(g, level, frontier[i], g.index[frontier[i] + 1]) {
      if i < w.i { assert SeenTo(g, level, frontier[i], g.index[frontier[i] + 1]); }
    }
  }

  lemma SlotCost(g: Graph, w: Worker, x: Worker)
    requires !w.merged && !x.merged && w.i < w.end && x.i == w.i + 1 && x.end == w.end && w.j <= |g.edges| && 0 <= x.j
    ensures Cost(g, x) < Cost(g, w)
  {
    assert (w.end - w.i) * (|g.edges| + 2) == (x.end - x.i) * (|g.edges| + 2) + (|g.edges| + 2);
  }

  /** The worker hands its vertices over under the mutex. */
  lemma MergeStep(g: Graph, frontier: seq<nat>, level: seq<int>, starts: seq<nat>, ws: seq<Worker>, t: nat)
    requires WellFormed(g) && |level| == g.n && InGraph(g, frontier)
    requires Workers(g, frontier, level, starts, ws) && Chunked(frontier, starts, ws) && t < |ws| && !ws[t].merged
    requires WorkerOk(g, frontier, level, starts[t], ws[t]) && ws[t].i == ws[t].end
    ensures var w := ws[t].(local := [], merged := true); var vs := ws[t := w];
      Workers(g, frontier, level, starts, vs) && Chunked(frontier, starts, vs) && 0 <= Costs(g, vs) < Costs(g, ws)
      && Locals(vs) + multiset(ws[t].local) == Locals(ws)
  {
    var w := ws[t].(local := [], merged := true);
    assert WorkerOk(g, frontier, level, starts[t], w);
    WorkersUpdate(g, frontier, level, starts, ws, t, w);
    CostsUpdate(g, ws, t, w);
    LocalsUpdate(ws, t, w);
    CostsPositive(g, frontier, level, starts, ws[t := w]);
  }

  lemma {:induction false} CostsPositive(g: Graph, frontier: seq<nat>, level: seq<int>, starts: seq<nat>,
                                         ws: seq<Worker>)
    requires WellFormed(g) && |level| == g.n && InGraph(g, frontier) && Workers(g, frontier, level, starts, ws)
    ensures Costs(g, ws) >= 0
  {
    if |ws| > 0 {
      assert WorkerOk(g, frontier, level, starts[0], ws[0]);
      CostPositive(g, ws[0]);
      assert Workers(g, frontier, level, starts[1..], ws[1..]) by {
        forall t | 0 <= t < |ws[1..]| ensures WorkerOk(g, frontier, level, starts[1..][t], ws[1..][t]) {
          assert WorkerOk(g, frontier, level, starts[t + 1], ws[t + 1]);
        }
      }
      CostsPositive(g, frontier, level, starts[1..], ws[1..]);
    }
  }

  lemma CostPositive(g: Graph, w: Worker)
    requires w.i <= w.end && (w.i < w.end ==> w.j <= |g.edges|)
    ensures Cost(g, w) >= 0
  {
    assert (w.end - w.i) * (|g.edges| + 2) >= 0;
  }

  /** A vertex is taken: its level is set, and it is on the taker's list only. */
  lemma TakeStep(g: Graph, root: nat, before: seq<int>, level: seq<int>, d: nat, ws: seq<Worker>, t: nat, v: nat,
                 w: Worker, next: seq<nat>)
    requires WellFormed(g) && root < g.n && Shallow(g, root) && d < INFINITE && |level| == |before| == g.n && v < g.n
    requires Exact(g, root, before, d) && Advanced(g, root, before, level, d)
    requires TakenOnce(before, level, multiset(next) + Locals(ws)) && level[v] == INFINITE
    requires v in Ball(g, root, d + 1) && t < |ws| && w.local == ws[t].local + [v]
    ensures (d + 1) % 65536 == d + 1 < INFINITE
    ensures Advanced(g, root, before, level[v := d + 1], d)
    ensures TakenOnce(before, level[v := d + 1], multiset(next) + Locals(ws[t := w]))
  {
    hide Ball, Shallow, Locals, Exact, WellFormed;
    assert AdvancedAt(g, root, before, level, d, v);
    LevelInBall(g, root, before, d, v);
    RoomForLevel(g, root, v, d);
    TakeOnce(before, level, d, ws, t, v, w, next);
    var after := level[v := d + 1];
    forall u | 0 <= u < g.n ensures AdvancedAt(g, root, before, after, d, u) {
      assert AdvancedAt(g, root, before, level, d, u);
    }
  }

  lemma TakeOnce(before: seq<int>, level: seq<int>, d: nat, ws: seq<Worker>, t: nat, v: nat, w: Worker, next: seq<nat>)
    requires |before| == |level| && v < |level| && t < |ws| && w.local == ws[t].local + [v]
    requires TakenOnce(before, level, multiset(next) + Locals(ws)) && level[v] == before[v] && d + 1 != before[v]
    ensures TakenOnce(before, level[v := d + 1], multiset(next) + Locals(ws[t := w]))
  {
    hide Locals;
    LocalsUpdate(ws, t, w);
    assert multiset(w.local) == multiset(ws[t].local) + multiset{v};
    var a, b := multiset(next) + Locals(ws), multiset(next) + Locals(ws[t := w]);
    forall u: nat ensures b[u] == a[u] + if u == v then 1 else 0 {
      assert (Locals(ws[t := w]) + multiset(ws[t].local))[u] == (Locals(ws) + multiset(w.local))[u];
    }
    forall u: nat ensures b[u] == if u < |level| && level[v := d + 1][u] != before[u] then 1 else 0 {
      assert a[u] == if u < |level| && level[u] != before[u] then 1 else 0;
    }
  }

  lemma TakeWorkers(g: Graph, frontier: seq<nat>, level: seq<int>, starts: seq<nat>, ws: seq<Worker>, t: nat, x: int)
    requires WellFormed(g) && |level| == g.n && InGraph(g, frontier) && x != INFINITE
    requires Workers(g, frontier, level, starts, ws) && Chunked(frontier, starts, ws) && t < |ws| && !ws[t].merged
    requires WorkerOk(g, frontier, level, starts[t], ws[t]) && ws[t].i < ws[t].end
    requires ws[t].j < g.index[frontier[ws[t].i] + 1]
    ensures var trg := g.edges[ws[t].j]; trg < g.n
    ensures var trg := g.edges[ws[t].j]; var w := ws[t].(j := ws[t].j + 1,
        local := ws[t].local + [trg]); var vs := ws[t := w];
      Workers(g, frontier, level[trg := x], starts, vs) && Chunked(frontier, starts, vs)
          && 0 <= Costs(g, vs) < Costs(g, ws)
  {
    hide Chunked, Locals;
    var trg := g.edges[ws[t].j];
    var w := ws[t].(j := ws[t].j + 1, local := ws[t].local + [trg]);
    var after := level[trg := x];
    forall u | 0 <= u < |ws| ensures WorkerOk(g, frontier, after, starts[u], ws[u]) {
      SeenStays(g, frontier, level, starts[u], ws[u], trg, x);
    }
    assert WorkerOk(g, frontier, after, starts[t], w) by { assert WorkerOk(g, frontier, after, starts[t], ws[t]); }
    WorkersUpdate(g, frontier, after, starts, ws, t, w);
    CostsUpdate(g, ws, t, w);
    CostsPositive(g, frontier, after, starts, ws[t := w]);
  }

  lemma {:induction false} AllMerged(g: Graph, frontier: seq<nat>, level: seq<int>, starts: seq<nat>, ws: seq<Worker>)
    requires WellFormed(g) && |level| == g.n && InGraph(g, frontier) && Workers(g, frontier, level, starts, ws)
    requires forall t | 0 <= t < |ws| :: ws[t].merged
    ensures Locals(ws) == multiset{}
  {
    if |ws| > 0 {
      assert WorkerOk(g, frontier, level, starts[0], ws[0]);
      assert Workers(g, frontier, level, starts[1..], ws[1..]) by {
        forall t | 0 <= t < |ws[1..]| ensures WorkerOk(g, frontier, level, starts[1..][t], ws[1..][t]) {
          assert WorkerOk(g, frontier, level, starts[t + 1], ws[t + 1]);
        }
      }
      AllMerged(g, frontier, level, starts[1..], ws[1..]);
    }
  }

  // ----- chunks -----

  /** Rounding the chunk size up covers the frontier: slot `i` lies in the chunk of one thread, and of no other. */
  lemma ChunkCovers(size: nat, threads: nat, i: nat)
    requires threads > 0 && i < size
    ensures var c := (size + threads - 1) / threads; c > 0 && i / c < threads && i / c * c <= i < i / c * c + c
    ensures var c := (size + threads - 1) / threads; forall t: nat | t * c <= i < t * c + c :: t == i / c
  {
    var c := (size + threads - 1) / threads;
    assert c * threads >= size;
    MulBelow(i / c, threads, c);
    forall t: nat | t * c <= i < t * c + c ensures t == i / c { ChunksApart(t, i / c, c, i); }
  }

  lemma ChunksApart(t: nat, u: nat, c: nat, i: nat)
    requires t * c <= i < t * c + c && u * c <= i < u * c + c
    ensures t == u
  {
    Spread(t, c);
    Spread(u, c);
    if t < u { MulAtLeast(u, t + 1, c); }
    if u < t { MulAtLeast(t, u + 1, c); }
  }

  lemma Spread(q: nat, c: nat)
    ensures (q + 1) * c == q * c + c
  {
  }

  lemma MulBelow(q: nat, n: nat, c: nat)
    ensures q * c < n * c ==> q < n
  {
    if q >= n { MulAtLeast(q, n, c); }
  }

  lemma MulAtLeast(q: nat, n: nat, c: nat)
    requires q >= n
    ensures q * c >= n * c
  {
  }

  // ----- one level -----

  /** The chunks of the frontier, one for each thread; threads without a chunk are not started. */
  method Spawn(g: Graph, frontier: seq<nat>, ghost level: seq<int>, numThreads: nat)
    returns (ws: seq<Worker>, ghost starts: seq<nat>)
    requires WellFormed(g) && |level| == g.n && InGraph(g, frontier) && numThreads > 0
    ensures Workers(g, frontier, level, starts, ws) && Chunked(frontier, starts, ws) && Locals(ws) == multiset{}
  {
    hide WorkerOk, WellFormed, Locals, Chunks, Chunked, InGraph, Least;
    var size := |frontier|;
    var chunk := (size + numThreads - 1) / numThreads;
    ws, starts := [], [];
    var t := 0;
    var start := 0;
    NoChunks(chunk, size);
    while t < numThreads
      invariant 0 <= t <= numThreads && |ws| == |starts| == t && start == t * chunk
      invariant forall u | 0 <= u < t :: WorkerOk(g, frontier, level, starts[u], ws[u]) && ws[u].local == []
      invariant Chunks(starts, ws, t, chunk, size)
    {
      var end := Least(start + chunk, size);
      ghost var s0, w0 := starts, ws;
      StartOk(g, frontier, level, start, chunk);
      var w := FirstWorker(g, frontier, start, end);
      ws, starts := ws + [w], starts + [w.i];
      ChunkMine(s0, w0, starts, ws, t, start, chunk, size);
      Spread(t, chunk);
      t := t + 1;
      start := start + chunk;
    }
    ChunksAssign(frontier, starts, ws, numThreads, chunk);
    NoLocals(ws);
  }

  /** Where a thread with chunk `start .. end` begins; without a chunk it has nothing to do. */
  function FirstWorker(g: Graph, frontier: seq<nat>, start: nat, end: nat): Worker
    requires WellFormed(g) && InGraph(g, frontier) && end <= |frontier|
  {
    if start >= end then Worker(end, 0, end, [], true)
    else Worker(start, g.index[frontier[start]], end, [], false)
  }

  ghost predicate Chunks(starts: seq<nat>, ws: seq<Worker>, t: nat, chunk: nat, size: nat)
    requires |starts| == |ws|
  {
    forall u: nat, i: nat {:trigger Mine(starts, ws, u, i)} | u < t && i < size ::
      Mine(starts, ws, u, i) <==> u * chunk <= i < u * chunk + chunk
  }

  lemma NoChunks(chunk: nat, size: nat)
    ensures Chunks([], [], 0, chunk, size)
  {
  }

  lemma ChunksAssign(frontier: seq<nat>, starts: seq<nat>, ws: seq<Worker>, threads: nat, chunk: nat)
    requires |starts| == |ws| == threads > 0 && chunk == (|frontier| + threads - 1) / threads
    requires Chunks(starts, ws, threads, chunk, |frontier|)
    ensures Chunked(frontier, starts, ws)
  {
    forall i: nat | i < |frontier| ensures Assigned(starts, ws, i) {
      ChunkCovers(|frontier|, threads, i);
      assert Mine(starts, ws, i / chunk, i);
    }
    forall t: nat, u: nat, i: nat | i < |frontier| && Mine(starts, ws, t, i) && Mine(starts, ws, u, i) ensures t == u {
      ChunksApart(t, u, chunk, i);
    }
  }

  lemma StartOk(g: Graph, frontier: seq<nat>, level: seq<int>, start: nat, chunk: nat)
    requires WellFormed(g) && |level| == g.n && InGraph(g, frontier)
    ensures var end := Least(start + chunk, |frontier|);
      end <= |frontier|
      && WorkerOk(g, frontier, level, FirstWorker(g, frontier, start, end).i, FirstWorker(g, frontier, start, end))
  {
    if start < Least(start + chunk, |frontier|) {
      assert frontier[start] < g.n && g.index[frontier[start] + 1] <= g.index[g.n];
    }
  }

  lemma ChunkMine(s0: seq<nat>, w0: seq<Worker>, starts: seq<nat>, ws: seq<Worker>, t: nat, start: nat, chunk: nat,
                  size: nat)
    requires |s0| == |w0| == t && |starts| == |ws| == t + 1 && s0 == starts[..t] && w0 == ws[..t]
    requires start == t * chunk
    requires ws[t].end == Least(start + chunk, size)
    requires starts[t] == if start < ws[t].end then start else ws[t].end
    requires Chunks(s0, w0, t, chunk, size)
    ensures Chunks(starts, ws, t + 1, chunk, size)
  {
    forall u: nat, i: nat | u < t + 1 && i < size
      ensures Mine(starts, ws, u, i) <==> u * chunk <= i < u * chunk + chunk
    {
      if u < t { assert Mine(starts, ws, u, i) == Mine(s0, w0, u, i); }
    }
  }

  function Least(a: nat, b: nat): nat {
    if a < b then a else b
  }

  lemma {:induction false} NoLocals(ws: seq<Worker>)
    requires forall t | 0 <= t < |ws| :: ws[t].local == []
    ensures Locals(ws) == multiset{}
  {
    if |ws| > 0 { NoLocals(ws[1..]); }
  }

  /** One level: chunks are handed to the threads, which then run in any interleaving. */
  method RunLevel(g: Graph, ghost root: nat, level: array<int>, frontier: seq<nat>, d: nat, numThreads: nat)
    returns (next: seq<nat>)
    requires WellFormed(g) && root < g.n && Shallow(g, root) && d < INFINITE && numThreads > 0
    requires Exact(g, root, level[..], d) && Frontier(g, root, frontier, d)
    modifies level
    ensures Exact(g, root, level[..], d + 1) && Frontier(g, root, next, d + 1)
  {
    hide Ball, Exact, Frontier, Shallow, Advanced, TakenOnce, Workers, Chunked, WorkerOk, Costs, Locals,
         WellFormed, InGraph;
    ghost var before := level[..];
    FrontierInGraph(g, root, frontier, d);
    LevelLength(g, root, level[..], d);
    var ws: seq<Worker>;
    ghost var starts: seq<nat>;
    ws, starts := Spawn(g, frontier, level[..], numThreads);
    next := [];
    StartsAdvanced(g, root, before, d);
    assert multiset(next) + Locals(ws) == multiset{};
    while exists t :: 0 <= t < |ws| && !ws[t].merged
      invariant level.Length == g.n && Workers(g, frontier, level[..], starts, ws) && Chunked(frontier, starts, ws)
      invariant Advanced(g, root, before, level[..], d) && TakenOnce(before, level[..], multiset(next) + Locals(ws))
      decreases Costs(g, ws)
    {
      var t: nat :| 0 <= t < |ws| && !ws[t].merged;
      var w := ws[t];
      ghost var now := level[..];
      WorkerFacts(g, frontier, now, starts, ws, t);
      if w.i < w.end {
        var src := frontier[w.i];
        if w.j < g.index[src + 1] {
          var trg := g.edges[w.j];
          if level[trg] == INFINITE {
            InBallOf(g, root, frontier, d, w.i);
            TargetInBall(g, root, src, w.j, d);
            var taker := w.(j := w.j + 1, local := w.local + [trg]);
            TakeStep(g, root, before, now, d, ws, t, trg, taker, next);
            TakeWorkers(g, frontier, now, starts, ws, t, d + 1);
            level[trg] := (d + 1) % 65536;
            ws := ws[t := taker];
            assert level[..] == now[trg := d + 1];
          } else {
            PassStep(g, frontier, now, starts, ws, t);
            ws := ws[t := w.(j := w.j + 1)];
          }
        } else {
          SlotStep(g, frontier, now, starts, ws, t);
          ws := ws[t := w.(i := w.i + 1, j := if w.i + 1 < w.end then g.index[frontier[w.i + 1]] else 0)];
        }
      } else {
        MergeStep(g, frontier, now, starts, ws, t);
        ghost var bag := multiset(next) + Locals(ws);
        next := next + w.local;
        ws := ws[t := w.(local := [], merged := true)];
        assert multiset(next) + Locals(ws) == bag;
      }
    }
    AllMerged(g, frontier, level[..], starts, ws);
    assert multiset(next) + Locals(ws) == multiset(next);
    LevelDone(g, root, frontier, before, level[..], starts, ws, d, next);
  }

  // ----- the whole search -----

  method InitBfs(level: array<int>, visitedFilter: array<set<nat>>)
    requires BitmapSize(level.Length) <= visitedFilter.Length
    modifies level, visitedFilter
    ensures forall v | 0 <= v < level.Length :: level[v] == INFINITE
    ensures forall i | 0 <= i < BitmapSize(level.Length) :: visitedFilter[i] == {}
    ensures visitedFilter[BitmapSize(level.Length)..] == old(visitedFilter[BitmapSize(level.Length)..])
  {
    for i := 0 to level.Length
      invariant forall v | 0 <= v < i :: level[v] == INFINITE
      invariant visitedFilter[..] == old(visitedFilter[..])
    {
      level[i] := INFINITE;
    }
    for i := 0 to BitmapSize(level.Length)
      invariant forall v | 0 <= v < level.Length :: level[v] == INFINITE
      invariant forall k | 0 <= k < i :: visitedFilter[k] == {}
      invariant visitedFilter[i..] == old(visitedFilter[i..])
    {
      visitedFilter[i] := {};
    }
  }

  /** The search: the levels are the exact distances, unreached vertices stay infinite, and the result is
      the largest finite level. */
  method RunBfs(g: Graph, level: array<int>, root: nat, numThreads: nat) returns (last: nat)
    requires WellFormed(g) && root < g.n && Shallow(g, root) && numThreads > 0 && level.Length == g.n
    requires forall v | 0 <= v < g.n :: level[v] == INFINITE
    modifies level
    ensures forall v: nat | v < g.n :: level[v] != INFINITE ==> 0 <= level[v] && Distance(g, root, v, level[v])
    ensures forall v: nat, k: nat | v < g.n && Distance(g, root, v, k) :: level[v] == k
    ensures last < INFINITE && (exists v: nat :: v < g.n && level[v] == last) && forall v: nat | v < g.n ::
        level[v] != INFINITE ==> level[v] <= last
  {
    hide Ball, Shallow, Distance, WellFormed;
    level[root] := 0;
    var frontier := [root];
    last := 0;
    StartExact(g, root, level[..]);
    while true
      invariant level.Length == g.n && last < INFINITE && frontier != []
      invariant Exact(g, root, level[..], last) && Frontier(g, root, frontier, last)
      decreases g.n - |Ball(g, root, last)|
    {
      hide Exact, Frontier;
      ghost var shell := frontier;
      var next := RunLevel(g, root, level, frontier, last, numThreads);
      if next == [] {
        SearchDone(g, root, level[..], shell, last);
        break;
      }
      NextLevel(g, root, next, last);
      frontier := next;
      last := last + 1;
    }
  }

  lemma StartExact(g: Graph, root: nat, level: seq<int>)
    requires WellFormed(g) && root < g.n == |level| && level[root] == 0
    requires forall v | 0 <= v < g.n && v != root :: level[v] == INFINITE
    ensures Exact(g, root, level, 0) && Frontier(g, root, [root], 0)
  {
    DistanceIsFirstBall(g, root, root, 0);
    hide Distance, WellFormed;
  }

  /** A non-empty next frontier makes the ball larger, and its level is one. */
  lemma NextLevel(g: Graph, root: nat, next: seq<nat>, d: nat)
    requires WellFormed(g) && root < g.n && Shallow(g, root) && next != [] && Frontier(g, root, next, d + 1)
    requires d < INFINITE
    ensures d + 1 < INFINITE && |Ball(g, root, d)| < |Ball(g, root, d + 1)| <= g.n
  {
    var v := next[0];
    assert v in multiset(next) && multiset(next)[v] > 0;
    RoomForLevel(g, root, v, d);
    BallGrows(g, root, d, d + 1);
    Smaller(Ball(g, root, d), Ball(g, root, d + 1));
    Smaller(Ball(g, root, d + 1), Vertices(g.n));
  }

  /** An empty next frontier: the ball is everything reachable. */
  lemma SearchDone(g: Graph, root: nat, level: seq<int>, frontier: seq<nat>, d: nat)
    requires WellFormed(g) && root < g.n && d < INFINITE && frontier != []
    requires Frontier(g, root, frontier, d) && Frontier(g, root, [], d + 1) && Exact(g, root, level, d + 1)
    ensures |level| == g.n
    ensures forall v: nat | v < g.n :: level[v] != INFINITE ==> 0 <= level[v] && Distance(g, root, v, level[v]) && level[v] <= d
    ensures forall v: nat, k: nat | v < g.n && Distance(g, root, v, k) :: level[v] == k
    ensures exists v: nat :: v < g.n && level[v] == d
  {
    hide Ball, Distance, WellFormed;
    forall v: nat | v in Ball(g, root, d + 1) ensures v in Ball(g, root, d) {
      assert !AtDistance(g, root, v, d + 1) by { EmptyShell(g, root, d + 1, v); }
    }
    forall v: nat | v < g.n ensures level[v] != INFINITE ==> 0 <= level[v] && Distance(g, root, v, level[v]) && level[v] <= d {
      ExactMeans(g, root, level, d + 1, v);
      BallGrows(g, root, d, d + 1);
      if level[v] != INFINITE { DistanceIsFirstBall(g, root, v, level[v]); }
    }
    forall v: nat, k: nat | v < g.n && Distance(g, root, v, k) ensures level[v] == k {
      DistanceIsFirstBall(g, root, v, k);
      BallFull(g, root, d, k);
      BallGrows(g, root, d, d + 1);
      ExactMeans(g, root, level, d + 1, v);
      SameDistance(g, root, v, k, level[v]);
    }
    InBallOf(g, root, frontier, d, 0);
    var u := frontier[0];
    assert multiset(frontier)[u] > 0 by { assert u in multiset(frontier); }
    DistanceIsFirstBall(g, root, u, d);
    BallGrows(g, root, d, d + 1);
    ExactMeans(g, root, level, d + 1, u);
    SameDistance(g, root, u, d, level[u]);
  }

  lemma EmptyShell(g: Graph, root: nat, d: nat, v: nat)
    requires WellFormed(g) && root < g.n && Frontier(g, root, [], d)
    ensures !AtDistance(g, root, v, d)
  {
    hide AtDistance;
    assert multiset([])[v] == 0;
  }

  lemma ExactMeans(g: Graph, root: nat, level: seq<int>, d: nat, v: nat)
    requires WellFormed(g) && root < g.n && Exact(g, root, level, d) && v < g.n && d <= INFINITE
    ensures |level| == g.n && (v !in Ball(g, root, d) ==> level[v] == INFINITE)
    ensures v in Ball(g, root, d) ==> 0 <= level[v] <= d && Distance(g, root, v, level[v])
  {
    assert ExactAt(g, root, level, d, v);
    hide Ball, Distance;
  }

  lemma SameDistance(g: Graph, root: nat, v: nat, i: nat, k: nat)
    requires WellFormed(g) && Distance(g, root, v, i) && Distance(g, root, v, k)
    ensures i == k
  {
    hide Reaches, WellFormed;
  }
}
