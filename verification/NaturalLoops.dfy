/** Natural loops by paths: which blocks they have and how they nest. */
module NaturalLoops {
  import opened Cfg
  import opened DominatorAnalysis

  /** The end of a back edge to h. */
  ghost predicate IsLatch(g: Graph, h: Block, l: Block) {
    Reachable(g, h) && Edge(g, l, h) && Dominates(g, h, l)
  }

  ghost predicate IsHeader(g: Graph, h: Block) {
    exists l :: IsLatch(g, h, l)
  }

  /** b reaches a latch of h by this path, which does not pass h. */
  ghost predicate LatchWalk(g: Graph, h: Block, b: Block, p: seq<Block>, l: Block) {
    IsLatch(g, h, l) && Walk(g, p, b, l) && h !in p
  }

  /** The header, and the blocks that reach a latch without passing the header. */
  ghost predicate InLoop(g: Graph, h: Block, b: Block) {
    IsHeader(g, h) && (b == h || exists p, l :: LatchWalk(g, h, b, p, l))
  }

  /** The graphs that loop detection works on. */
  ghost predicate LoopGraph(g: Graph) {
    WellFormed(g) && ReachableClosedUnderPred(g)
  }

  lemma WalkCons(g: Graph, p: seq<Block>, a: Block, u: Block, v: Block)
    requires Walk(g, p, u, v) && Edge(g, a, u)
    ensures Walk(g, [a] + p, a, v)
  {
    var q := [a] + p;
    forall i | 0 <= i < |q| - 1 ensures Edge(g, q[i], q[i + 1]) {
      if i > 0 {
        assert Edge(g, p[i - 1], p[i - 1 + 1]);
      }
    }
  }

  lemma WalkTail(g: Graph, p: seq<Block>, u: Block, v: Block, k: nat)
    requires Walk(g, p, u, v) && k < |p|
    ensures Walk(g, p[k..], p[k], v)
  {
    var q := p[k..];
    forall i | 0 <= i < |q| - 1 ensures Edge(g, q[i], q[i + 1]) {
      assert Edge(g, p[k + i], p[k + i + 1]);
    }
  }

  lemma WalkJoin(g: Graph, p: seq<Block>, q: seq<Block>, u: Block, v: Block, x: Block)
    requires Walk(g, p, u, v) && Walk(g, q, v, x)
    ensures Walk(g, p + q[1..], u, x)
  {
    var r := p + q[1..];
    forall i | 0 <= i < |r| - 1 ensures Edge(g, r[i], r[i + 1]) {
      if i < |p| - 1 {
        assert Edge(g, p[i], p[i + 1]);
      } else {
        var k := i - |p| + 1;
        assert r[i] == q[k] && r[i + 1] == q[k + 1];
        assert Edge(g, q[k], q[k + 1]);
      }
    }
  }

  /** A path from the entry, then a walk. */
  lemma PathThenWalk(g: Graph, q: seq<Block>, p: seq<Block>, u: Block, v: Block)
    requires PathTo(g, q, u) && Walk(g, p, u, v)
    ensures PathTo(g, q + p[1..], v)
  {
    assert Walk(g, q, g.entry, u) by {
      forall i | 0 <= i < |q| - 1 ensures Edge(g, q[i], q[i + 1]) {
      }
    }
    WalkJoin(g, q, p, g.entry, u, v);
    var r := q + p[1..];
    assert forall i | 0 <= i < |r| - 1 :: Edge(g, r[i], r[i + 1]);
  }

  /** Blocks of a loop are reachable, and its header dominates them. */
  lemma {:induction false} LoopReachable(g: Graph, b: Block, p: seq<Block>, l: Block)
    requires LoopGraph(g) && Walk(g, p, b, l) && Reachable(g, l)
    ensures Reachable(g, b)
    decreases |p|
  {
    if |p| > 1 {
      WalkTail(g, p, b, l, 1);
      LoopReachable(g, p[1], p[1..], l);
      assert Edge(g, p[0], p[0 + 1]);
    }
  }

  lemma LatchReachable(g: Graph, h: Block, l: Block)
    requires LoopGraph(g) && IsLatch(g, h, l)
    ensures Reachable(g, l)
  {
  }

  lemma LoopDominated(g: Graph, h: Block, b: Block)
    requires LoopGraph(g) && InLoop(g, h, b)
    ensures Reachable(g, b) && Dominates(g, h, b)
  {
    if b == h {
      DominatesReflexive(g, h);
      var l :| IsLatch(g, h, l);
    } else {
      var p, l :| LatchWalk(g, h, b, p, l);
      LatchReachable(g, h, l);
      LoopReachable(g, b, p, l);
      forall q | PathTo(g, q, b) ensures h in q {
        PathThenWalk(g, q, p, b, l);
        assert h in q + p[1..];
      }
    }
  }

  lemma LoopPred(g: Graph, h: Block, u: Block, b: Block)
    requires InLoop(g, h, b) && b != h && Edge(g, u, b)
    ensures InLoop(g, h, u)
  {
    if u != h {
      var p, l :| LatchWalk(g, h, b, p, l);
      WalkCons(g, p, u, b, l);
      assert LatchWalk(g, h, u, [u] + p, l);
    }
  }

  lemma LatchInLoop(g: Graph, h: Block, l: Block)
    requires IsLatch(g, h, l)
    ensures InLoop(g, h, l)
  {
    if l != h {
      assert LatchWalk(g, h, l, [l], l);
    }
  }

  /** Whatever has the header, the latches, and the predecessors of its other blocks, has the loop. */
  lemma {:induction false} LoopLeast(g: Graph, h: Block, s: set<Block>, b: Block, p: seq<Block>, l: Block)
    requires WellFormed(g) && LatchWalk(g, h, b, p, l)
    requires forall k | IsLatch(g, h, k) :: k in s
    requires forall u, v | Edge(g, u, v) && v in s && v != h :: u in s
    ensures b in s
    decreases |p|
  {
    if |p| > 1 {
      WalkTail(g, p, b, l, 1);
      assert h !in p[1..];
      LoopLeast(g, h, s, p[1], p[1..], l);
      assert Edge(g, p[0], p[0 + 1]);
      assert p[1] in p;
    }
  }

  lemma LoopLeastAll(g: Graph, h: Block, s: set<Block>)
    requires WellFormed(g) && h in s
    requires forall k | IsLatch(g, h, k) :: k in s
    requires forall u, v | Edge(g, u, v) && v in s && v != h :: u in s
    ensures forall b | InLoop(g, h, b) :: b in s
  {
    forall b | InLoop(g, h, b) ensures b in s {
      if b != h {
        var p, l :| LatchWalk(g, h, b, p, l);
        LoopLeast(g, h, s, b, p, l);
      }
    }
  }

  // ----- nesting -----

  /** All blocks on the way from a block of a loop to its latch are in the loop. */
  lemma WalkStays(g: Graph, h: Block, b: Block, p: seq<Block>, l: Block)
    requires LatchWalk(g, h, b, p, l)
    ensures forall x | x in p :: InLoop(g, h, x)
  {
    forall x | x in p ensures InLoop(g, h, x) {
      var i :| 0 <= i < |p| && p[i] == x;
      WalkTail(g, p, b, l, i);
      assert LatchWalk(g, h, x, p[i..], l);
    }
  }

  /** From the header of a loop to a block of it, inside the loop. */
  lemma HeaderWalk(g: Graph, h: Block, b: Block) returns (p: seq<Block>)
    requires LoopGraph(g) && InLoop(g, h, b)
    ensures Walk(g, p, h, b) && forall x | x in p :: InLoop(g, h, x)
  {
    LoopDominated(g, h, b);
    var q :| PathTo(g, q, b);
    var i := LastOccurrence(q, h);
    p := q[i..];
    assert Walk(g, p, h, b) by {
      forall k | 0 <= k < |p| - 1 ensures Edge(g, p[k], p[k + 1]) {
        assert Edge(g, q[i + k], q[i + k + 1]);
      }
    }
    TailInLoop(g, h, p, b);
  }

  lemma {:induction false} TailInLoop(g: Graph, h: Block, p: seq<Block>, b: Block)
    requires LoopGraph(g) && InLoop(g, h, b) && |p| > 0 && Walk(g, p, p[0], b) && forall k | 0 < k < |p| :: p[k] != h
    ensures forall x | x in p :: InLoop(g, h, x)
    decreases |p|
  {
    if |p| > 1 {
      WalkTail(g, p, p[0], b, 1);
      TailInLoop(g, h, p[1..], b);
      assert p[1] in p[1..];
      assert Edge(g, p[0], p[0 + 1]);
      LoopPred(g, h, p[0], p[1]);
      assert forall x | x in p :: x == p[0] || x in p[1..];
    } else {
      assert forall x | x in p :: x == b;
    }
  }

  /** A loop that shares a block with one whose header it does not dominate is inside that one. */
  lemma LoopsNest(g: Graph, p: Block, h: Block, b: Block)
    requires LoopGraph(g) && p != h && InLoop(g, p, b) && InLoop(g, h, b) && !Dominates(g, p, h)
    ensures !InLoop(g, p, h) && InLoop(g, h, p) && forall x | InLoop(g, p, x) :: InLoop(g, h, x)
  {
    if InLoop(g, p, h) {
      LoopDominated(g, p, h);
    }
    assert !InLoop(g, p, h);
    LoopDominated(g, p, b);
    LoopDominated(g, h, b);
    HeaderInside(g, p, h, b);
    forall x | InLoop(g, p, x) ensures InLoop(g, h, x) {
      BlockInside(g, p, h, x);
    }
  }

  lemma HeaderInside(g: Graph, p: Block, h: Block, b: Block)
    requires LoopGraph(g) && p != h && InLoop(g, p, b) && InLoop(g, h, b) && !InLoop(g, p, h)
    ensures InLoop(g, h, p)
  {
    assert b != h;
    var w := HeaderWalk(g, p, b);
    assert h !in w;
    var q, l :| LatchWalk(g, h, b, q, l);
    WalkJoin(g, w, q, p, b, l);
    assert h !in w + q[1..];
    assert LatchWalk(g, h, p, w + q[1..], l);
  }

  lemma BlockInside(g: Graph, p: Block, h: Block, x: Block)
    requires LoopGraph(g) && p != h && !InLoop(g, p, h) && InLoop(g, h, p) && InLoop(g, p, x)
    ensures InLoop(g, h, x)
  {
    assert x != h;
    if x != p {
      var w, k :| LatchWalk(g, p, x, w, k);
      WalkStays(g, p, x, w, k);
      assert h !in w;
      var q, l :| LatchWalk(g, h, p, q, l);
      WalkCons(g, q, k, p, l);
      WalkJoin(g, w, [k] + q, x, k, l);
      assert ([k] + q)[1..] == q;
      assert h !in w + q;
      assert LatchWalk(g, h, x, w + q, l);
    }
  }
}
