/** Graphs in compressed rows, walks, and shortest distances. */
module Graphs {
  /** The edges out of `u` are `edges[index[u] .. index[u + 1]]`. */
  datatype Graph = Graph(n: nat, index: seq<nat>, edges: seq<nat>)

  predicate WellFormed(g: Graph) {
    && |g.index| == g.n + 1
    && (forall u, v | 0 <= u <= v <= g.n :: g.index[u] <= g.index[v])
    && g.index[g.n] <= |g.edges|
    && forall j | 0 <= j < |g.edges| :: g.edges[j] < g.n
  }

  predicate Edge(g: Graph, u: nat, v: nat)
    requires WellFormed(g)
  {
    u < g.n && exists j :: g.index[u] <= j < g.index[u + 1] && g.edges[j] == v
  }

  predicate Walk(g: Graph, w: seq<nat>)
    requires WellFormed(g)
  {
    |w| > 0 && (forall i | 0 <= i < |w| :: w[i] < g.n) && forall i | 0 < i < |w| :: Edge(g, w[i - 1], w[i])
  }

  /** There is a walk of `k` edges from `root` to `v`. */
  ghost predicate Reaches(g: Graph, root: nat, v: nat, k: nat)
    requires WellFormed(g)
  {
    exists w :: Walk(g, w) && |w| == k + 1 && w[0] == root && w[k] == v
  }

  /** The shortest distance from `root` to `v` is `k`. */
  ghost predicate Distance(g: Graph, root: nat, v: nat, k: nat)
    requires WellFormed(g)
  {
    Reaches(g, root, v, k) && forall i: nat | i < k :: !Reaches(g, root, v, i)
  }

  function Vertices(n: nat): (r: set<nat>)
    ensures |r| == n && forall v :: v in r <==> 0 <= v < n
  {
    if n == 0 then {} else Vertices(n - 1) + {n - 1}
  }

  /** Some vertex of `b` has an edge to `v`. */
  predicate Into(g: Graph, b: set<nat>, v: nat)
    requires WellFormed(g)
  {
    exists u :: u in b && Edge(g, u, v)
  }

  /** Vertices within `k` edges of `root`. */
  function Ball(g: Graph, root: nat, k: nat): (b: set<nat>)
    requires WellFormed(g) && root < g.n
    ensures root in b && b <= Vertices(g.n)
  {
    if k == 0 then {root}
    else
      var b := Ball(g, root, k - 1);
      b + set v | v in Vertices(g.n) && Into(g, b, v)
  }

  lemma BallStep(g: Graph, root: nat, k: nat, v: nat)
    requires WellFormed(g) && root < g.n
    ensures v in Ball(g, root, k + 1) <==> v in Ball(g, root, k) || (v < g.n && Into(g, Ball(g, root, k), v))
  {
  }

  lemma {:induction false} BallGrows(g: Graph, root: nat, i: nat, k: nat)
    requires WellFormed(g) && root < g.n && i <= k
    ensures Ball(g, root, i) <= Ball(g, root, k)
    decreases k
  {
    hide WellFormed, Edge, Into;
    if i < k { BallGrows(g, root, i, k - 1); }
  }

  lemma {:induction false} ReachesBall(g: Graph, root: nat, v: nat, k: nat)
    requires WellFormed(g) && root < g.n && Reaches(g, root, v, k)
    ensures v in Ball(g, root, k)
    decreases k
  {
    hide WellFormed, Edge;
    var w :| Walk(g, w) && |w| == k + 1 && w[0] == root && w[k] == v;
    if k > 0 {
      var h := w[..k];
      assert Walk(g, h) && h[k - 1] == w[k - 1];
      assert Reaches(g, root, w[k - 1], k - 1);
      ReachesBall(g, root, w[k - 1], k - 1);
      assert Edge(g, w[k - 1], v);
      BallStep(g, root, k - 1, v);
    }
  }

  lemma WalkOn(g: Graph, root: nat, u: nat, v: nat, i: nat)
    requires WellFormed(g) && Reaches(g, root, u, i) && Edge(g, u, v) && v < g.n
    ensures Reaches(g, root, v, i + 1)
  {
    hide WellFormed, Edge;
    var w :| Walk(g, w) && |w| == i + 1 && w[0] == root && w[i] == u;
    var h := w + [v];
    forall j | 0 < j < |h| ensures Edge(g, h[j - 1],
        h[j]) { if j < |w| { assert h[j - 1] == w[j - 1] && h[j] == w[j]; } }
    assert Walk(g, h) && h[0] == root && h[i + 1] == v && |h| == i + 2;
  }

  lemma RootReaches(g: Graph, root: nat)
    requires WellFormed(g) && root < g.n
    ensures Reaches(g, root, root, 0)
  {
    hide WellFormed, Edge;
    assert Walk(g, [root]) && [root][0] == root;
  }

  lemma BallZero(g: Graph, root: nat)
    requires WellFormed(g) && root < g.n
    ensures Ball(g, root, 0) == {root}
  {
    hide WellFormed;
  }

  lemma {:induction false} BallReaches(g: Graph, root: nat, v: nat, k: nat) returns (i: nat)
    requires WellFormed(g) && root < g.n && v in Ball(g, root, k)
    ensures i <= k && Reaches(g, root, v, i)
    decreases k
  {
    hide WellFormed, Edge, Reaches, Ball;
    if k == 0 {
      BallZero(g, root);
      i := 0;
      RootReaches(g, root);
    } else {
      BallStep(g, root, k - 1, v);
      if v in Ball(g, root, k - 1) {
        i := BallReaches(g, root, v, k - 1);
      } else {
        assert Into(g, Ball(g, root, k - 1), v);
        var u :| u in Ball(g, root, k - 1) && Edge(g, u, v);
        i := BallReaches(g, root, u, k - 1);
        WalkOn(g, root, u, v, i);
        i := i + 1;
      }
    }
  }

  /** The distance of a vertex is the first ball it is in. */
  lemma DistanceIsFirstBall(g: Graph, root: nat, v: nat, k: nat)
    requires WellFormed(g) && root < g.n
    ensures Distance(g, root, v, k) <==> v in Ball(g, root, k) && (k > 0 ==> v !in Ball(g, root, k - 1))
  {
    hide WellFormed, Edge, Reaches, Ball;
    if Distance(g, root, v, k) {
      ReachesBall(g, root, v, k);
      if k > 0 && v in Ball(g, root, k - 1) {
        var i := BallReaches(g, root, v, k - 1);
      }
    }
    if v in Ball(g, root, k) && (k > 0 ==> v !in Ball(g, root, k - 1)) {
      forall i: nat | i < k ensures !Reaches(g, root, v, i) {
        NotBefore(g, root, v, i, k - 1);
      }
      var i := BallReaches(g, root, v, k);
    }
  }

  lemma NotBefore(g: Graph, root: nat, v: nat, i: nat, k: nat)
    requires WellFormed(g) && root < g.n && i <= k && v !in Ball(g, root, k)
    ensures !Reaches(g, root, v, i)
  {
    hide WellFormed, Edge, Reaches, Ball;
    BallGrows(g, root, i, k);
    if Reaches(g, root, v, i) { ReachesBall(g, root, v, i); }
  }

  /** Once a ball stops growing it contains everything reachable. */
  lemma {:induction false} BallFull(g: Graph, root: nat, d: nat, k: nat)
    requires WellFormed(g) && root < g.n && Ball(g, root, d + 1) <= Ball(g, root, d)
    ensures Ball(g, root, k) <= Ball(g, root, d)
    decreases k
  {
    hide WellFormed, Edge;
    if k <= d {
      BallGrows(g, root, k, d);
    } else {
      BallFull(g, root, d, k - 1);
      hide Ball;
      forall v | v in Ball(g, root, k) ensures v in Ball(g, root, d) {
        BallStep(g, root, k - 1, v);
        BallStep(g, root, d, v);
      }
    }
  }

  lemma {:induction false} Smaller(a: set<nat>, b: set<nat>)
    requires a <= b
    ensures |a| <= |b| && (a != b ==> |a| < |b|)
  {
    if a != {} {
      var x :| x in a;
      Smaller(a - {x}, b - {x});
    }
  }
}
