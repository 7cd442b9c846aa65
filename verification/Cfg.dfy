/** Control-flow graphs of a function: blocks by identity, each with the
    predecessor and successor lists that the branch instructions maintain. */
module Cfg {
  import opened Common

  /** A block's identity. */
  type Block = int

  datatype Graph = Graph(
    entry: Block,
    blocks: seq<Block>,
    pre: map<Block, seq<Block>>,
    succ: map<Block, seq<Block>>)

  /** The two lists mirror each other and stay inside the function. */
  ghost predicate WellFormed(g: Graph) {
    && g.entry in g.blocks
    && (forall b | b in g.blocks :: b in g.pre && b in g.succ)
    && (forall u, v | u in g.blocks && v in g.succ[u] :: v in g.blocks && u in g.pre[v])
    && (forall u, v | v in g.blocks && u in g.pre[v] :: u in g.blocks && v in g.succ[u])
  }

  /** What is left of a list of blocks when some have been removed from it. */
  function Remaining(s: seq<Block>, gone: set<Block>): (r: seq<Block>)
    ensures forall b :: b in r <==> b in s && b !in gone
    ensures |r| <= |s| && (|r| == |s| ==> r == s)
  {
    if s == [] then []
    else
      var rest := Remaining(s[..|s| - 1], gone);
      if s[|s| - 1] in gone then rest else rest + [s[|s| - 1]]
  }

  ghost predicate Edge(g: Graph, u: Block, v: Block) {
    u in g.blocks && u in g.succ && v in g.succ[u]
  }

  /** A way along edges from u to v. */
  ghost predicate Walk(g: Graph, p: seq<Block>, u: Block, v: Block) {
    && |p| > 0 && p[0] == u && p[|p| - 1] == v
    && forall i | 0 <= i < |p| - 1 :: Edge(g, p[i], p[i + 1])
  }

  /** A path from the entry that ends in b. */
  ghost predicate PathTo(g: Graph, p: seq<Block>, b: Block) {
    && |p| > 0 && p[0] == g.entry && p[|p| - 1] == b
    && forall i | 0 <= i < |p| - 1 :: Edge(g, p[i], p[i + 1])
  }

  ghost predicate Reachable(g: Graph, b: Block) {
    exists p :: PathTo(g, p, b)
  }

  /** Dominance by paths: every path from the entry to b passes d. */
  ghost predicate Dominates(g: Graph, d: Block, b: Block) {
    forall p | PathTo(g, p, b) :: d in p
  }

  ghost predicate StrictlyDominates(g: Graph, d: Block, b: Block) {
    d != b && Dominates(g, d, b)
  }

  /** The immediate dominator: the strict dominator that all others dominate. */
  ghost predicate IsIdom(g: Graph, i: Block, b: Block) {
    && StrictlyDominates(g, i, b)
    && forall d | StrictlyDominates(g, d, b) :: Dominates(g, d, i)
  }

  lemma PathPrefix(g: Graph, p: seq<Block>, b: Block, i: nat)
    requires PathTo(g, p, b) && i < |p|
    ensures PathTo(g, p[..i + 1], p[i])
  {
  }

  lemma PathExtend(g: Graph, p: seq<Block>, u: Block, v: Block)
    requires PathTo(g, p, u) && Edge(g, u, v)
    ensures PathTo(g, p + [v], v)
  {
    var q := p + [v];
    forall i | 0 <= i < |q| - 1 ensures Edge(g, q[i], q[i + 1]) {
      if i < |p| - 1 {
        assert Edge(g, p[i], p[i + 1]);
      }
    }
  }

  /** Replacing the part of a path before one of its blocks. */
  lemma PathSplice(g: Graph, p: seq<Block>, b: Block, i: nat, q: seq<Block>)
    requires PathTo(g, p, b) && i < |p| && PathTo(g, q, p[i])
    ensures PathTo(g, q + p[i + 1..], b)
  {
    var r := q + p[i + 1..];
    forall k | 0 <= k < |r| - 1 ensures Edge(g, r[k], r[k + 1]) {
      if k < |q| - 1 {
        assert Edge(g, q[k], q[k + 1]);
      } else {
        var j := k - |q| + 1 + i;
        assert r[k] == p[j] && r[k + 1] == p[j + 1];
        assert Edge(g, p[j], p[j + 1]);
      }
    }
  }

  lemma PathInBlocks(g: Graph, p: seq<Block>, b: Block)
    requires WellFormed(g) && PathTo(g, p, b)
    ensures forall x | x in p :: x in g.blocks
  {
    forall i | 0 <= i < |p| ensures p[i] in g.blocks {
      if i > 0 {
        assert Edge(g, p[i - 1], p[i - 1 + 1]);
      }
    }
  }

  /** Cutting the cycles out of a path. */
  lemma {:induction false} SimplePath(g: Graph, p: seq<Block>, b: Block) returns (q: seq<Block>)
    requires PathTo(g, p, b)
    ensures PathTo(g, q, b) && NoDuplicates(q)
    ensures forall x | x in q :: x in p
    decreases |p|
  {
    if NoDuplicates(p) {
      q := p;
    } else {
      var i, j :| 0 <= i < j < |p| && p[i] == p[j];
      PathPrefix(g, p, b, i);
      PathSplice(g, p, b, j, p[..i + 1]);
      q := SimplePath(g, p[..i + 1] + p[j + 1..], b);
    }
  }

  lemma DominatesReflexive(g: Graph, b: Block)
    ensures Dominates(g, b, b)
  {
  }

  lemma DominatesTransitive(g: Graph, a: Block, b: Block, c: Block)
    requires Dominates(g, a, b) && Dominates(g, b, c)
    ensures Dominates(g, a, c)
  {
    forall p | PathTo(g, p, c) ensures a in p {
      var i :| 0 <= i < |p| && p[i] == b;
      PathPrefix(g, p, c, i);
      assert a in p[..i + 1];
    }
  }

  lemma {:induction false} NoMutualDominance(g: Graph, a: Block, b: Block, p: seq<Block>)
    requires a != b && Dominates(g, a, b) && Dominates(g, b, a)
    requires PathTo(g, p, b)
    ensures false
    decreases |p|
  {
    var i :| 0 <= i < |p| && p[i] == a;
    PathPrefix(g, p, b, i);
    NoMutualDominance(g, b, a, p[..i + 1]);
  }

  lemma DominatesAntisymmetric(g: Graph, a: Block, b: Block)
    requires Reachable(g, b) && Dominates(g, a, b) && Dominates(g, b, a)
    ensures a == b
  {
    if a != b {
      var p :| PathTo(g, p, b);
      NoMutualDominance(g, a, b, p);
    }
  }

  lemma DominatorReachable(g: Graph, d: Block, b: Block)
    requires Reachable(g, b) && Dominates(g, d, b)
    ensures Reachable(g, d)
  {
    var p :| PathTo(g, p, b);
    var i :| 0 <= i < |p| && p[i] == d;
    PathPrefix(g, p, b, i);
  }

  lemma ReachableInBlocks(g: Graph, b: Block)
    requires WellFormed(g) && Reachable(g, b)
    ensures b in g.blocks
  {
    var p :| PathTo(g, p, b);
    PathInBlocks(g, p, b);
  }

  lemma EntryReachable(g: Graph)
    ensures Reachable(g, g.entry)
    ensures forall b :: Reachable(g, b) ==> Dominates(g, g.entry, b)
    ensures forall d | Dominates(g, d, g.entry) :: d == g.entry
  {
    assert PathTo(g, [g.entry], g.entry);
    forall d | Dominates(g, d, g.entry) ensures d == g.entry {
      assert d in [g.entry];
    }
  }

  lemma SuccReachable(g: Graph, u: Block, v: Block)
    requires Reachable(g, u) && Edge(g, u, v)
    ensures Reachable(g, v)
  {
    var p :| PathTo(g, p, u);
    PathExtend(g, p, u, v);
  }

  /** A strict dominator of v dominates every predecessor of v. */
  lemma DominatesPredecessor(g: Graph, d: Block, u: Block, v: Block)
    requires Edge(g, u, v) && StrictlyDominates(g, d, v)
    ensures Dominates(g, d, u)
  {
    forall p | PathTo(g, p, u) ensures d in p {
      PathExtend(g, p, u, v);
      assert d in p + [v];
    }
  }

  lemma LastOccurrence(p: seq<Block>, a: Block) returns (i: nat)
    requires a in p
    ensures i < |p| && p[i] == a && forall k | i < k < |p| :: p[k] != a
  {
    i := |p| - 1;
    while p[i] != a
      decreases i
      invariant 0 <= i < |p| && forall k | i < k < |p| :: p[k] != a
    {
      i := i - 1;
    }
  }

  /** A path that leaves a block b for good without meeting a again shows that
      a does not dominate its end, if a does not dominate b. */
  lemma NotDominatedBeyond(g: Graph, a: Block, b: Block, c: Block, p: seq<Block>, j: nat)
    requires PathTo(g, p, c) && j < |p| && p[j] == b
    requires forall k | j <= k < |p| :: p[k] != a
    requires !Dominates(g, a, b)
    ensures !Dominates(g, a, c)
  {
    var q :| PathTo(g, q, b) && a !in q;
    PathSplice(g, p, c, j, q);
    assert a !in q + p[j + 1..];
  }

  /** Of two dominators of a block, one dominates the other. */
  lemma DominatorsLinear(g: Graph, a: Block, b: Block, c: Block)
    requires Reachable(g, c) && Dominates(g, a, c) && Dominates(g, b, c)
    ensures Dominates(g, a, b) || Dominates(g, b, a)
  {
    var p :| PathTo(g, p, c);
    var i := LastOccurrence(p, a);
    var j := LastOccurrence(p, b);
    if !Dominates(g, a, b) && i < j {
      NotDominatedBeyond(g, a, b, c, p, j);
    }
    if !Dominates(g, b, a) && j < i {
      NotDominatedBeyond(g, b, a, c, p, i);
    }
    if i == j {
      DominatesReflexive(g, a);
    } else if i < j {
      assert Dominates(g, a, b);
    } else {
      assert Dominates(g, b, a);
    }
  }

  lemma IdomUnique(g: Graph, i: Block, j: Block, b: Block)
    requires Reachable(g, b) && IsIdom(g, i, b) && IsIdom(g, j, b)
    ensures i == j
  {
    DominatorReachable(g, j, b);
    DominatesAntisymmetric(g, i, j);
  }
}
