/** Trees over the folded keys of one table, whatever their lengths. No leaf of such a tree overflows when it is
    split, and no run of calls with such keys goes wrong. */
module TableTrees {
  import opened Keys
  import opened Nodes
  import opened Spaces
  import opened Trees
  import opened TreeSteps
  import opened BTrees
  import opened Olc
  import opened PageLocks
  import opened Linear
  import opened CleanRuns
  import F = Folding

  predicate FoldsTo(key: seq<F.Value>, kinds: seq<F.Kind>, k: Bytes) {
    F.Conforms(key, kinds) && F.AllClean(key) && k == F.Folded(key, kinds)
  }

  /** The folded form of a key whose texts hold no zero byte. */
  ghost predicate IsFolded(k: Bytes, kinds: seq<F.Kind>) {
    exists key :: FoldsTo(key, kinds, k)
  }

  // ----- folded keys are tame -----

  lemma CodeNotEmpty(v: F.Value, k: F.Kind)
    requires F.Fits(v, k)
    ensures |F.Code(v, k)| > 0
  {
  }

  /** The larger of two codes has a byte behind the first difference, or both have one length. */
  lemma CodeTame(u: F.Value, v: F.Value, k: F.Kind)
    requires F.Fits(u, k) && F.Fits(v, k) && F.Clean(u) && F.Clean(v) && Less(F.Code(u, k), F.Code(v, k))
    ensures Tame(F.Code(u, k), F.Code(v, k))
  {
    if k.Text? {
      var a, b := F.Code(u, k), F.Code(v, k);
      var c := Common(a, b);
      LessByCommon(a, b);
      Trichotomy(a, a);
      F.TextCode(u.b, v.b);
      assert c < |a| && c < |b| && a[c] < b[c];
    }
  }

  lemma {:induction false} FoldedTame(a: seq<F.Value>, b: seq<F.Value>, kinds: seq<F.Kind>)
    requires F.Conforms(a, kinds) && F.Conforms(b, kinds) && F.AllClean(a) && F.AllClean(b)
    requires Less(F.Folded(a, kinds), F.Folded(b, kinds))
    ensures Tame(F.Folded(a, kinds), F.Folded(b, kinds))
  {
    hide Less, Common, F.Code, F.ValueLess;
    if |a| == 0 {
      NothingBelowEmpty([]);
    } else {
      assert F.Fits(a[0], kinds[0]) && F.Fits(b[0], kinds[0]) && F.Clean(a[0]) && F.Clean(b[0]);
      var p, q := F.Code(a[0], kinds[0]), F.Code(b[0], kinds[0]);
      var x, y := F.Folded(a[1..], kinds[1..]), F.Folded(b[1..], kinds[1..]);
      if a[0] == b[0] {
        CutPrefix(p, x, y);
        FoldedTame(a[1..], b[1..], kinds[1..]);
      } else {
        F.CodeOrder(a[0], b[0], kinds[0]);
        F.SplitDecides(p, q, x, y);
        CommonUnique(p + x, q + y, Common(p, q));
        CodeTame(a[0], b[0], kinds[0]);
        if |kinds| > 1 { CodeNotEmpty(b[1], kinds[1]); }
      }
    }
  }

  lemma FoldedKeysTame(keys: set<Bytes>, kinds: seq<F.Kind>)
    requires forall k | k in keys :: IsFolded(k, kinds)
    ensures TameKeys(keys)
  {
    hide Less, Tame, F.Folded, F.Conforms, F.AllClean;
    forall a, b | a in keys && b in keys && Less(a, b) ensures Tame(a, b) {
      var x :| FoldsTo(x, kinds, a);
      var y :| FoldsTo(y, kinds, b);
      FoldedTame(x, y, kinds);
    }
  }

  // ----- trees and runs -----

  /** Whatever the fields, a tree over their folded keys never overflows. */
  lemma TableNeverOverflows(t: Tree, m: map<Bytes, Bytes>, alloc: nat, ordered: bool, kinds: seq<F.Kind>)
    requires Keeps(t, m, alloc) && forall k | k in m :: IsFolded(k, kinds)
    ensures forall c :: !OverflowsAt(t, c, ordered)
  {
    hide OverflowsAt, Keeps, IsFolded, TameKeys;
    FoldedKeysTame(m.Keys, kinds);
    TameNeverOverflows(t, m, alloc, ordered);
  }

  /** A call on the tree of a table: rows are short enough for a page, and updates keep their length. */
  ghost predicate RowCall(op: Op, kinds: seq<F.Kind>) {
    match op.goal
    case Put(v) => IsFolded(op.key, kinds) && |v| <= MAX_KV - 44
    case Set(f) => forall v :: |f(v)| == |v|
    case _ => true
  }

  /** Rows have the keys of one table of the schema, and each is inserted once at most. */
  ghost predicate TableCalls(m: map<Bytes, Bytes>, es: seq<Event>, table: nat)
    requires table < |F.Schema()|
  {
    && (forall k | k in m :: IsFolded(k, F.Schema()[table]))
    && (forall i | 0 <= i < |es| && es[i].Call? :: RowCall(es[i].op, F.Schema()[table]))
    && (forall i | 0 <= i < |es| && Puts(es[i]) :: es[i].op.key !in m)
    && (forall i, j | 0 <= i < j < |es| && Puts(es[i]) && Puts(es[j]) :: es[i].op.key != es[j].op.key)
  }

  lemma RowLegal(op: Op, table: nat)
    requires table < |F.Schema()| && RowCall(op, F.Schema()[table])
    ensures Legal(op)
  {
    hide F.Schema, F.Folded;
    if op.goal.Put? {
      var key :| FoldsTo(key, F.Schema()[table], op.key);
      F.SchemaKeys(table, key);
    }
  }

  /** Runs of such calls never go wrong, customers by name included, whose keys have many lengths. */
  lemma TableRunSafe(ws: seq<World>, ts: seq<Tid>, es: seq<Event>, table: nat, j: nat)
    requires IsRun(ws, ts, es) && j < |ws| && table < |F.Schema()| && TableCalls(ws[0].m, es, table)
    ensures Careful(ws, ts, es, j) && !ws[j].crashed && Sound(ws[j].tree) && Represents(ws[j].tree, ws[j].m)
  {
    hide AtRest, Next, Legal, Spoils, Sound, Represents, TameKeys, IsFolded, F.Schema;
    var put := set i | 0 <= i < |es| && Puts(es[i]) :: es[i].op.key;
    var keys := ws[0].m.Keys + put;
    forall k | k in keys ensures IsFolded(k, F.Schema()[table]) {
      if k in put {
        var i :| 0 <= i < |es| && Puts(es[i]) && es[i].op.key == k;
        assert RowCall(es[i].op, F.Schema()[table]);
      }
    }
    FoldedKeysTame(keys, F.Schema()[table]);
    forall i | 0 <= i < |es| && es[i].Call? ensures Legal(es[i].op) { RowLegal(es[i].op, table); }
    CleanRunSafe(ws, ts, es, keys, j);
  }
}
