/** The loops of built functions: each is entered by one branch, and comes back by one. */
module BuiltLoops {
  import opened Common
  import opened Cfg
  import opened DominatorAnalysis
  import opened NaturalLoops
  import opened Ir
  import opened Ssa
  import opened LoopForm
  import opened Building
  import opened FunctionCode
  import opened Closing
  import opened CompiledCode
  import opened Layout
  import opened LiveBlocks

  lemma BeforeTransitive(s: seq<Block>, u: Block, v: Block, w: Block)
    requires NoDuplicates(s) && Before(s, u, v) && Before(s, v, w)
    ensures Before(s, u, w) && u != w
  {
    var i, j :| 0 <= i < j < |s| && s[i] == u && s[j] == v;
    var k, l :| 0 <= k < l < |s| && s[k] == v && s[l] == w;
    assert j == k;
  }

  lemma NotBeforeItself(s: seq<Block>, u: Block)
    requires NoDuplicates(s)
    ensures !Before(s, u, u)
  {
  }

  lemma LastOnce(p: seq<Block>)
    requires NoDuplicates(p) && |p| > 1
    ensures p[|p| - 1] !in p[..|p| - 2 + 1]
  {
  }

  /** Blocks on a path without cycles come in the order. */
  lemma {:induction false} PathForward(g: Graph, all: seq<Block>, p: seq<Block>, b: Block, i: nat)
    requires OrderedBy(g, all) && PathTo(g, p, b) && NoDuplicates(p) && i < |p| - 1
    ensures Before(all, p[i], b)
    decreases |p|
  {
    hide Before;
    var n := |p| - 1;
    assert Edge(g, p[n - 1], p[n - 1 + 1]);
    PathPrefix(g, p, b, n - 1);
    LastOnce(p);
    assert !Dominates(g, b, p[n - 1]);
    assert Before(all, p[n - 1], b);
    if i < n - 1 {
      PathForward(g, all, p[..n], p[n - 1], i);
      BeforeTransitive(all, p[i], p[n - 1], b);
    }
  }

  /** A strict dominator of a reachable block comes before it. */
  lemma DominatorBefore(g: Graph, all: seq<Block>, h: Block, b: Block)
    requires OrderedBy(g, all) && Reachable(g, b) && Dominates(g, h, b) && h != b
    ensures Before(all, h, b)
  {
    hide Before, OrderedBy;
    var q :| PathTo(g, q, b);
    var p := SimplePath(g, q, b);
    var i :| 0 <= i < |p| && p[i] == h;
    PathForward(g, all, p, b, i);
  }

  /** Every edge to the head of a natural loop from a block that it dominates is a loop's branch back. */
  lemma LatchIsBack(c: Code, pre: Edges, succ: Edges, order: seq<Block>, backs: set<Back>, h: Block, l: Block)
    requires Complete(c, pre, succ) && Laid(StartCode(), c, order, backs)
    requires var g := FuncOf(c, pre, succ).graph; LoopGraph(g) && OrderedBy(g, [0] + order) && IsLatch(g, h, l)
    ensures exists e :: Back(l, h, e) in backs && BackOk(c, Back(l, h, e), 1)
  {
    hide Before, Certified, BackOk, OrderedBy, Complete;
    var g := FuncOf(c, pre, succ).graph;
    EdgeGoes(c, pre, succ, l, h);
    if Before([0] + order, l, h) {
      ForwardOnce(g, [0] + order);
      if h == l {
        NotBeforeItself([0] + order, h);
      } else {
        DominatorBefore(g, [0] + order, h, l);
        BeforeTransitive([0] + order, l, h, l);
      }
    }
  }

  lemma ForwardOnce(g: Graph, all: seq<Block>)
    requires OrderedBy(g, all)
    ensures NoDuplicates(all)
  {
  }

  lemma EdgeGoes(c: Code, pre: Edges, succ: Edges, u: Block, v: Block)
    requires Complete(c, pre, succ)
    ensures Edge(FuncOf(c, pre, succ).graph, u, v) <==> Goes(c, u, v)
    ensures Goes(c, u, v) ==> 0 <= u < c.count && 0 < v < c.count
  {
    hide Certified;
    InBlocks(c, pre, succ, u);
    FuncWellFormed(c, pre, succ);
  }

  /** The block in front of a loop is not in the loop. */
  lemma EntryOutside(c: Code, pre: Edges, succ: Edges, order: seq<Block>, backs: set<Back>, h: Block, o: Block)
    requires Complete(c, pre, succ) && Laid(StartCode(), c, order, backs) && o < h && Goes(c, o, h)
    requires var g := FuncOf(c, pre, succ).graph; LoopGraph(g) && OrderedBy(g, [0] + order)
    ensures !InLoop(FuncOf(c, pre, succ).graph, h, o)
  {
    hide Before, Certified, OrderedBy, Complete, InLoop;
    var g := FuncOf(c, pre, succ).graph;
    if InLoop(g, h, o) {
      LoopDominated(g, h, o);
      EdgeGoes(c, pre, succ, o, h);
      SuccReachable(g, o, h);
      assert IsLatch(g, h, o);
      LatchIsBack(c, pre, succ, order, backs, h, o);
    }
  }

  lemma HeadEntry(c: Code, pre: Edges, succ: Edges, order: seq<Block>, backs: set<Back>, h: Block) returns (o: Block)
    requires Complete(c, pre, succ) && Laid(StartCode(), c, order, backs)
    requires var g := FuncOf(c, pre, succ).graph; LoopGraph(g) && OrderedBy(g, [0] + order) && IsHeader(g, h)
    ensures CleanEntry(FuncOf(c, pre, succ), h, o)
  {
    hide Before, Certified, OrderedBy, Complete, InLoop, Laid;
    var f := FuncOf(c, pre, succ);
    var l :| IsLatch(f.graph, h, l);
    LatchIsBack(c, pre, succ, order, backs, h, l);
    var e :| Back(l, h, e) in backs && BackOk(c, Back(l, h, e), 1);
    o :| EntersHead(c, Back(l, h, e), o);
    EntryOutside(c, pre, succ, order, backs, h, o);
    LatchInLoop(f.graph, h, l);
    EdgeGoes(c, pre, succ, o, h);
    InBlocks(c, pre, succ, o);
    InBlocks(c, pre, succ, h);
    EntryListed(c, pre, succ, h, o);
    forall u | Edge(f.graph, u, h) ensures u == o || u == l {
      EdgeGoes(c, pre, succ, u, h);
    }
    forall k | IsLatch(f.graph, h, k) ensures k in f.graph.succ && |f.graph.succ[k]| > 0 && f.graph.succ[k][0] == h {
      LatchInLoop(f.graph, h, k);
      EntryListed(c, pre, succ, h, l);
    }
    NoPairsBuilt(c, pre, succ, h, o);
  }

  lemma NoPairsBuilt(c: Code, pre: Edges, succ: Edges, h: Block, o: Block)
    requires Complete(c, pre, succ) && 0 <= h < c.count
    ensures PairsFrom(FuncOf(c, pre, succ), h, o)
  {
    hide Certified, InLoop;
  }

  /** A block that only branches to h is listed once as its predecessor. */
  lemma EntryListed(c: Code, pre: Edges, succ: Edges, h: Block, o: Block)
    requires Complete(c, pre, succ) && o in c.term && c.term[o] == Br(h) && 0 <= h < c.count
    ensures var g := FuncOf(c, pre, succ).graph; h in g.pre && Once(g.pre[h], o) && o in g.succ && g.succ[o] == [h]
  {
    hide Certified;
    var list := pre[h];
    assert Sources(c.count, succ, h, list);
    assert forall i, j | 0 <= i < |list| && 0 <= j < |list| && list[i] == o && list[j] == o :: i == j;
  }

  /** All loops of a built function are entered cleanly. */
  lemma BuiltClean(c: Code, pre: Edges, succ: Edges)
    requires Complete(c, pre, succ) && Ordered(StartCode(), c) && ReachableClosedUnderPred(FuncOf(c, pre, succ).graph)
    ensures CleanLoops(FuncOf(c, pre, succ))
  {
    hide Complete, CleanEntry, IsHeader, ReachableClosedUnderPred, Laid;
    var f := FuncOf(c, pre, succ);
    var order, backs :| Laid(StartCode(), c, order, backs);
    FuncWellFormed(c, pre, succ);
    BuiltForward(c, pre, succ, order, backs);
    forall h | IsHeader(f.graph, h) ensures exists o :: CleanEntry(f, h, o) {
      var o := HeadEntry(c, pre, succ, order, backs, h);
    }
  }

  /** Renaming keeps that. */
  lemma RenamedClean(f: Func, f': Func)
    requires CleanLoops(f) && WellFormedFunc(f') && f'.graph == f.graph && PairsOnEdges(f')
    requires forall b | b in f.graph.blocks && b in f.term && f.term[b].Br? :: b in f'.term && f'.term[b] == f.term[b]
    ensures CleanLoops(f')
  {
    hide InLoop, IsHeader, WellFormed, LatchesBranchBack;
    forall h | IsHeader(f'.graph, h) ensures exists o :: CleanEntry(f', h, o) {
      var o :| CleanEntry(f, h, o);
      assert CleanEntry(f', h, o);
    }
  }
}
