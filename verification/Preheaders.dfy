/** A new block on the one edge that enters a loop: paths, dominators and loops stay as they are. */
module Preheaders {
  import opened Cfg
  import opened NaturalLoops

  /** The edge from o, which has no other, to h goes through n now. */
  ghost predicate EdgeSplit(g: Graph, g': Graph, o: Block, h: Block, n: Block) {
    && WellFormed(g) && g'.entry == g.entry && o in g.blocks && h in g.blocks && n !in g.blocks
    && (forall b :: b in g'.blocks <==> b in g.blocks || b == n)
    && (forall v :: Edge(g, o, v) <==> v == h)
    && forall u, v :: Edge(g', u, v) <==> (u != o && Edge(g, u, v)) || (u == o && v == n) || (u == n && v == h)
  }

  /** The edge is the only one that enters the loop of h. */
  ghost predicate OnlyEntry(g: Graph, o: Block, h: Block) {
    h != g.entry && !IsLatch(g, h, o) && forall u | Edge(g, u, h) :: u == o || Dominates(g, h, u)
  }

  lemma {:induction false} Expanded(g: Graph, g': Graph, o: Block, h: Block, n: Block, w: seq<Block>, u: Block, v: Block) returns (q: seq<Block>)
    requires EdgeSplit(g, g', o, h, n) && Walk(g, w, u, v)
    ensures Walk(g', q, u, v) && (forall x | x in w :: x in q) && forall x | x in q :: x in w || x == n
    decreases |w|
  {
    if |w| == 1 {
      q := w;
    } else {
      WalkTail(g, w, u, v, 1);
      var t := Expanded(g, g', o, h, n, w[1..], w[1], v);
      assert Edge(g, w[0], w[0 + 1]);
      assert w == [u] + w[1..];
      if u == o {
        WalkCons(g', t, n, h, v);
        WalkCons(g', [n] + t, o, n, v);
        q := [o] + ([n] + t);
      } else {
        WalkCons(g', t, u, w[1], v);
        q := [u] + t;
      }
    }
  }

  lemma {:induction false} Collapsed(g: Graph, g': Graph, o: Block, h: Block, n: Block, w: seq<Block>, u: Block, v: Block) returns (q: seq<Block>)
    requires EdgeSplit(g, g', o, h, n) && Walk(g', w, u, v) && u != n && v != n
    ensures Walk(g, q, u, v) && forall x :: x in q <==> x in w && x != n
    decreases |w|
  {
    if |w| == 1 {
      q := w;
    } else {
      assert Edge(g', w[0], w[0 + 1]);
      if w[1] == n {
        assert Edge(g', w[1], w[1 + 1]);
        WalkTail(g', w, u, v, 2);
        var t := Collapsed(g, g', o, h, n, w[2..], h, v);
        WalkCons(g, t, o, h, v);
        q := [o] + t;
        assert w == [o, n] + w[2..];
      } else {
        WalkTail(g', w, u, v, 1);
        var t := Collapsed(g, g', o, h, n, w[1..], w[1], v);
        WalkCons(g, t, u, w[1], v);
        q := [u] + t;
        assert w == [u] + w[1..];
      }
    }
  }

  lemma PathIsWalk(g: Graph, p: seq<Block>, b: Block)
    ensures PathTo(g, p, b) <==> Walk(g, p, g.entry, b)
  {
  }

  // ----- reachability and dominance -----

  lemma ReachableKept(g: Graph, g': Graph, o: Block, h: Block, n: Block, b: Block)
    requires EdgeSplit(g, g', o, h, n) && b != n
    ensures Reachable(g', b) <==> Reachable(g, b)
  {
    hide Walk, EdgeSplit;
    EntryOld(g, g', o, h, n);
    if Reachable(g, b) {
      var p :| PathTo(g, p, b);
      PathIsWalk(g, p, b);
      var q := Expanded(g, g', o, h, n, p, g.entry, b);
      PathIsWalk(g', q, b);
    }
    if Reachable(g', b) {
      var p :| PathTo(g', p, b);
      PathIsWalk(g', p, b);
      var q := Collapsed(g, g', o, h, n, p, g.entry, b);
      PathIsWalk(g, q, b);
    }
  }

  lemma EntryOld(g: Graph, g': Graph, o: Block, h: Block, n: Block)
    requires EdgeSplit(g, g', o, h, n)
    ensures g'.entry == g.entry && g.entry != n && o != n && h != n
    ensures Edge(g, o, h) && Edge(g', o, n) && Edge(g', n, h)
  {
  }

  lemma NewEdges(g: Graph, g': Graph, o: Block, h: Block, n: Block, u: Block, v: Block)
    requires EdgeSplit(g, g', o, h, n) && Edge(g', u, v)
    ensures o in g.blocks && h in g.blocks && n !in g.blocks
    ensures if u == o then v == n else if u == n then v == h else Edge(g, u, v) && u in g.blocks && v in g.blocks
  {
  }

  lemma DominatesKept(g: Graph, g': Graph, o: Block, h: Block, n: Block, a: Block, b: Block)
    requires EdgeSplit(g, g', o, h, n) && a != n && b != n
    ensures Dominates(g', a, b) <==> Dominates(g, a, b)
  {
    hide Walk, EdgeSplit;
    EntryOld(g, g', o, h, n);
    if Dominates(g, a, b) {
      forall p | PathTo(g', p, b) ensures a in p {
        PathIsWalk(g', p, b);
        var q := Collapsed(g, g', o, h, n, p, g.entry, b);
        PathIsWalk(g, q, b);
      }
    }
    if Dominates(g', a, b) {
      forall p | PathTo(g, p, b) ensures a in p {
        PathIsWalk(g, p, b);
        var q := Expanded(g, g', o, h, n, p, g.entry, b);
        PathIsWalk(g', q, b);
      }
    }
  }

  /** The new block is reached from o only. */
  lemma BeforeNew(g: Graph, g': Graph, o: Block, h: Block, n: Block, p: seq<Block>)
    requires EdgeSplit(g, g', o, h, n) && PathTo(g', p, n)
    ensures |p| > 1 && PathTo(g', p[..|p| - 1], o)
  {
    var i := |p| - 2;
    assert |p| > 1;
    assert Edge(g', p[i], p[i + 1]);
    PathPrefix(g', p, n, i);
  }

  lemma NewDominated(g: Graph, g': Graph, o: Block, h: Block, n: Block, d: Block)
    requires EdgeSplit(g, g', o, h, n) && d != n
    ensures Dominates(g', d, n) <==> Dominates(g, d, o)
    ensures Reachable(g', n) <==> Reachable(g, o)
  {
    hide EdgeSplit;
    EntryOld(g, g', o, h, n);
    DominatesKept(g, g', o, h, n, d, o);
    ReachableKept(g, g', o, h, n, o);
    if Dominates(g', d, o) {
      forall p | PathTo(g', p, n) ensures d in p {
        BeforeNew(g, g', o, h, n, p);
        assert d in p[..|p| - 1];
      }
    }
    if Dominates(g', d, n) {
      forall p | PathTo(g', p, o) ensures d in p {
        PathExtend(g', p, o, n);
        assert d in p + [n];
      }
    }
    if Reachable(g', o) {
      SuccReachable(g', o, n);
    }
    if Reachable(g', n) {
      var p :| PathTo(g', p, n);
      BeforeNew(g, g', o, h, n, p);
    }
  }

  lemma {:induction false} FirstOccurrence(p: seq<Block>, a: Block) returns (i: nat)
    requires a in p
    ensures i < |p| && p[i] == a && a !in p[..i]
  {
    if p[0] == a {
      i := 0;
    } else {
      i := FirstOccurrence(p[1..], a);
      i := i + 1;
      assert p[..i] == [p[0]] + p[1..][..i - 1];
    }
  }

  /** Every way into the loop passes the new block. */
  lemma NewDominates(g: Graph, g': Graph, o: Block, h: Block, n: Block, b: Block)
    requires EdgeSplit(g, g', o, h, n) && OnlyEntry(g, o, h) && b != n && Dominates(g, h, b)
    ensures Dominates(g', n, b)
  {
    forall p | PathTo(g', p, h) ensures n in p {
      var i := FirstOccurrence(p, h);
      assert i > 0;
      var u := p[i - 1];
      assert Edge(g', p[i - 1], p[i - 1 + 1]);
      PathPrefix(g', p, h, i - 1);
      if u != n {
        DominatesKept(g, g', o, h, n, h, u);
      }
    }
    DominatesKept(g, g', o, h, n, h, b);
    DominatesTransitive(g', n, h, b);
  }

  // ----- loops -----

  lemma LatchKept(g: Graph, g': Graph, o: Block, h: Block, n: Block, k: Block, l: Block)
    requires EdgeSplit(g, g', o, h, n) && OnlyEntry(g, o, h) && k != n
    ensures l != n ==> (IsLatch(g', k, l) <==> IsLatch(g, k, l))
    ensures !IsLatch(g', k, n) && !IsLatch(g, k, n)
  {
    ReachableKept(g, g', o, h, n, k);
    if l != n {
      DominatesKept(g, g', o, h, n, k, l);
    }
    if IsLatch(g', k, n) {
      NewDominated(g, g', o, h, n, h);
    }
  }

  lemma NewNoHeader(g: Graph, g': Graph, o: Block, h: Block, n: Block)
    requires EdgeSplit(g, g', o, h, n) && OnlyEntry(g, o, h)
    ensures !IsHeader(g', n)
  {
    if IsHeader(g', n) {
      var l :| IsLatch(g', n, l);
      NewDominated(g, g', o, h, n, h);
      SuccReachable(g, o, h);
      forall p | PathTo(g', p, o) ensures h in p {
        assert n in p;
        var i :| 0 <= i < |p| && p[i] == n;
        assert Edge(g', p[i], p[i + 1]);
      }
      DominatesKept(g, g', o, h, n, h, o);
    }
  }

  lemma HeaderKept(g: Graph, g': Graph, o: Block, h: Block, n: Block, k: Block)
    requires EdgeSplit(g, g', o, h, n) && OnlyEntry(g, o, h) && k != n
    ensures IsHeader(g', k) <==> IsHeader(g, k)
  {
    hide EdgeSplit, OnlyEntry, IsLatch;
    if IsHeader(g, k) {
      var l :| IsLatch(g, k, l);
      LatchKept(g, g', o, h, n, k, l);
    }
    if IsHeader(g', k) {
      var l :| IsLatch(g', k, l);
      LatchKept(g, g', o, h, n, k, l);
    }
  }

  /** The old blocks are in the loops that they were in. */
  lemma LoopKept(g: Graph, g': Graph, o: Block, h: Block, n: Block, k: Block, b: Block)
    requires EdgeSplit(g, g', o, h, n) && OnlyEntry(g, o, h) && k != n && b != n
    ensures InLoop(g', k, b) <==> InLoop(g, k, b)
  {
    hide EdgeSplit, OnlyEntry, IsLatch, Walk;
    HeaderKept(g, g', o, h, n, k);
    if InLoop(g, k, b) && b != k {
      var p, l :| LatchWalk(g, k, b, p, l);
      LatchKept(g, g', o, h, n, k, l);
      var q := Expanded(g, g', o, h, n, p, b, l);
      assert LatchWalk(g', k, b, q, l);
    }
    if InLoop(g', k, b) && b != k {
      var p, l :| LatchWalk(g', k, b, p, l);
      LatchKept(g, g', o, h, n, k, l);
      var q := Collapsed(g, g', o, h, n, p, b, l);
      assert LatchWalk(g, k, b, q, l);
    }
  }

  /** The new block is in the loops around the one that it is put in front of. */
  lemma NewInLoop(g: Graph, g': Graph, o: Block, h: Block, n: Block, k: Block)
    requires EdgeSplit(g, g', o, h, n) && OnlyEntry(g, o, h) && k != n
    ensures InLoop(g', k, n) <==> k != h && InLoop(g, k, h)
  {
    hide OnlyEntry, IsLatch;
    EntryOld(g, g', o, h, n);
    HeaderKept(g, g', o, h, n, k);
    LoopKept(g, g', o, h, n, k, h);
    if InLoop(g', k, h) && k != h {
      var p, l :| LatchWalk(g', k, h, p, l);
      WalkCons(g', p, n, h, l);
      assert LatchWalk(g', k, n, [n] + p, l);
    }
    if InLoop(g', k, n) {
      var p, l :| LatchWalk(g', k, n, p, l);
      LatchKept(g, g', o, h, n, k, l);
      assert |p| > 1;
      assert Edge(g', p[0], p[0 + 1]);
      WalkTail(g', p, n, l, 1);
      assert h in p && k !in p[1..];
      assert LatchWalk(g', k, h, p[1..], l);
    }
  }

  lemma LoopGraphKept(g: Graph, g': Graph, o: Block, h: Block, n: Block)
    requires EdgeSplit(g, g', o, h, n) && LoopGraph(g) && WellFormed(g') && OnlyEntry(g, o, h)
    ensures LoopGraph(g')
  {
    forall u, v | Edge(g', u, v) && Reachable(g', v) ensures Reachable(g', u) {
      if v == n {
        NewDominated(g, g', o, h, n, h);
        ReachableKept(g, g', o, h, n, o);
      } else if u == n {
        NewDominated(g, g', o, h, n, h);
        ReachableKept(g, g', o, h, n, h);
      } else {
        ReachableKept(g, g', o, h, n, u);
        ReachableKept(g, g', o, h, n, v);
      }
    }
  }
}
