/** Taking out dead code keeps what later passes rely on: single assignment, and how loops are entered. */
module CleanedForm {
  import opened Common
  import opened Cfg
  import opened NaturalLoops
  import opened Ir
  import opened Ssa
  import opened LoopForm
  import opened Marking

  /** What the passes after promotion keep. */
  ghost predicate Form(f: Func) {
    WellFormedFunc(f) && LoopGraph(f.graph) && SsaForm(f) && PairsOnEdges(f) && CleanLoops(f)
  }

  // ----- blocks without predecessors -----

  /** g' is g without blocks that have no predecessors. */
  ghost predicate Cleared(g: Graph, g': Graph, gone: set<Block>) {
    && (forall b | b in gone :: b in g.blocks && b in g.pre && b != g.entry && g.pre[b] == [])
    && g'.entry == g.entry && g'.blocks == Remaining(g.blocks, gone) && g'.succ == g.succ
    && forall b | b in g.blocks && b !in gone :: b in g.pre && b in g'.pre && g'.pre[b] == Remaining(g.pre[b], gone)
  }

  /** Such a block is not on any path from the entry. */
  lemma NotOnPath(g: Graph, g': Graph, gone: set<Block>, p: seq<Block>, b: Block)
    requires WellFormed(g) && Cleared(g, g', gone) && PathTo(g, p, b)
    ensures forall x | x in p :: x !in gone
  {
    forall i | 0 <= i < |p| ensures p[i] !in gone {
      if i > 0 {
        assert Edge(g, p[i - 1], p[i - 1 + 1]);
      }
    }
  }

  lemma ClearedEdge(g: Graph, g': Graph, gone: set<Block>, u: Block, v: Block)
    requires WellFormed(g) && Cleared(g, g', gone)
    ensures Edge(g', u, v) <==> Edge(g, u, v) && u !in gone
  {
  }

  lemma PathCleared(g: Graph, g': Graph, gone: set<Block>, p: seq<Block>, b: Block)
    requires WellFormed(g) && Cleared(g, g', gone)
    ensures PathTo(g', p, b) <==> PathTo(g, p, b)
  {
    hide WellFormed, Cleared;
    forall u, v ensures Edge(g', u, v) <==> Edge(g, u, v) && u !in gone {
      ClearedEdge(g, g', gone, u, v);
    }
    SameEntry(g, g', gone);
    if PathTo(g, p, b) {
      NotOnPath(g, g', gone, p, b);
    }
  }

  lemma SameEntry(g: Graph, g': Graph, gone: set<Block>)
    requires Cleared(g, g', gone)
    ensures g'.entry == g.entry && g'.succ == g.succ && forall b :: b in g'.blocks <==> b in g.blocks && b !in gone
  {
  }

  lemma ReachCleared(g: Graph, g': Graph, gone: set<Block>, b: Block)
    requires WellFormed(g) && Cleared(g, g', gone)
    ensures (Reachable(g', b) <==> Reachable(g, b)) && (Reachable(g, b) ==> b !in gone && b in g'.blocks)
  {
    hide WellFormed, Cleared, PathTo;
    SameEntry(g, g', gone);
    if Reachable(g, b) {
      var p :| PathTo(g, p, b);
      PathCleared(g, g', gone, p, b);
      NotOnPath(g, g', gone, p, b);
      ReachableInBlocks(g, b);
      PathEnd(g, p, b);
    }
    if Reachable(g', b) {
      var p :| PathTo(g', p, b);
      PathCleared(g, g', gone, p, b);
    }
  }

  lemma PathEnd(g: Graph, p: seq<Block>, b: Block)
    requires PathTo(g, p, b)
    ensures b in p
  {
  }

  lemma DominatesCleared(g: Graph, g': Graph, gone: set<Block>, d: Block, b: Block)
    requires WellFormed(g) && Cleared(g, g', gone)
    ensures Dominates(g', d, b) <==> Dominates(g, d, b)
  {
    hide WellFormed, Cleared, PathTo;
    forall p ensures PathTo(g', p, b) <==> PathTo(g, p, b) {
      PathCleared(g, g', gone, p, b);
    }
  }

  lemma LatchCleared(g: Graph, g': Graph, gone: set<Block>, h: Block, l: Block)
    requires LoopGraph(g) && Cleared(g, g', gone)
    ensures IsLatch(g', h, l) <==> IsLatch(g, h, l)
  {
    hide Cleared, Dominates, Reachable;
    ClearedEdge(g, g', gone, l, h);
    ReachCleared(g, g', gone, h);
    ReachCleared(g, g', gone, l);
    DominatesCleared(g, g', gone, h, l);
  }

  lemma HeaderCleared(g: Graph, g': Graph, gone: set<Block>, h: Block)
    requires LoopGraph(g) && Cleared(g, g', gone)
    ensures IsHeader(g', h) <==> IsHeader(g, h)
  {
    hide Cleared, IsLatch, LoopGraph;
    forall l ensures IsLatch(g', h, l) <==> IsLatch(g, h, l) {
      LatchCleared(g, g', gone, h, l);
    }
  }

  /** Walks to a latch pass reachable blocks only. */
  lemma {:induction false} WalkCleared(g: Graph, g': Graph, gone: set<Block>, p: seq<Block>, b: Block, l: Block)
    requires LoopGraph(g) && Cleared(g, g', gone) && Reachable(g, l)
    ensures Walk(g', p, b, l) <==> Walk(g, p, b, l)
    decreases |p|
  {
    hide Cleared, Reachable;
    forall u, v ensures Edge(g', u, v) ==> Edge(g, u, v) {
      ClearedEdge(g, g', gone, u, v);
    }
    if Walk(g, p, b, l) {
      forall i | 0 <= i < |p| - 1 ensures Edge(g', p[i], p[i + 1]) {
        WalkTail(g, p, b, l, i);
        LoopReachable(g, p[i], p[i..], l);
        ReachCleared(g, g', gone, p[i]);
        ClearedEdge(g, g', gone, p[i], p[i + 1]);
      }
    }
  }

  lemma LoopCleared(g: Graph, g': Graph, gone: set<Block>, h: Block, b: Block)
    requires LoopGraph(g) && Cleared(g, g', gone)
    ensures InLoop(g', h, b) <==> InLoop(g, h, b)
  {
    hide Cleared, IsLatch, Walk, LoopGraph;
    HeaderCleared(g, g', gone, h);
    forall p, l ensures LatchWalk(g', h, b, p, l) <==> LatchWalk(g, h, b, p, l) {
      LatchCleared(g, g', gone, h, l);
      if IsLatch(g, h, l) {
        LatchReached(g, h, l);
        WalkCleared(g, g', gone, p, b, l);
      }
    }
  }

  lemma LatchReached(g: Graph, h: Block, l: Block)
    requires LoopGraph(g) && IsLatch(g, h, l)
    ensures Reachable(g, l)
  {
    LatchReachable(g, h, l);
  }

  lemma {:induction false} OnceRemaining(bs: seq<Block>, gone: set<Block>, b: Block)
    requires Once(bs, b)
    ensures Once(Remaining(bs, gone), b)
    decreases |bs|
  {
    if bs != [] {
      var init, last := bs[..|bs| - 1], bs[|bs| - 1];
      assert forall i | 0 <= i < |init| :: init[i] == bs[i];
      OnceRemaining(init, gone, b);
      if last == b {
        assert b !in init;
      }
    }
  }

  lemma EntryCleared(f: Func, g': Graph, gone: set<Block>, h: Block, o: Block)
    requires WellFormedFunc(f) && LoopGraph(f.graph) && Cleared(f.graph, g', gone) && CleanEntry(f, h, o) && IsHeader(f.graph, h)
    ensures CleanEntry(f.(graph := g'), h, o)
  {
    hide Cleared, InLoop, IsLatch, WellFormed, LoopGraph, Edge;
    var g := f.graph;
    SameEntry(g, g', gone);
    forall u, v ensures Edge(g', u, v) <==> Edge(g, u, v) && u !in gone {
      ClearedEdge(g, g', gone, u, v);
    }
    forall b ensures InLoop(g', h, b) <==> InLoop(g, h, b) {
      LoopCleared(g, g', gone, h, b);
    }
    forall l ensures IsLatch(g', h, l) <==> IsLatch(g, h, l) {
      LatchCleared(g, g', gone, h, l);
    }
    HeaderReached(g, h);
    ReachCleared(g, g', gone, h);
    EdgeOf(f, o, h);
    PredReached(g, o, h);
    ReachCleared(g, g', gone, o);
    PreCleared(g, g', gone, h, o);
    forall k, v, u | 0 <= k < |f.phis[h]| && (v, u) in f.phis[h][k].pairs ensures u == o || (InLoop(g', h, u) && Edge(g', u, h)) {
      if InLoop(g, h, u) && u != o {
        LoopReached(g, h, u);
        ReachCleared(g, g', gone, u);
      }
    }
  }

  lemma LoopReached(g: Graph, h: Block, b: Block)
    requires LoopGraph(g) && InLoop(g, h, b)
    ensures Reachable(g, b)
  {
    LoopDominated(g, h, b);
  }

  lemma HeaderReached(g: Graph, h: Block)
    requires IsHeader(g, h)
    ensures Reachable(g, h)
  {
  }

  lemma EdgeOf(f: Func, o: Block, h: Block)
    requires WellFormedFunc(f) && o in f.graph.blocks && o in f.term && f.term[o] == Br(h)
    ensures Edge(f.graph, o, h)
  {
  }

  lemma PredReached(g: Graph, o: Block, h: Block)
    requires LoopGraph(g) && Edge(g, o, h) && Reachable(g, h)
    ensures Reachable(g, o)
  {
  }

  lemma PreCleared(g: Graph, g': Graph, gone: set<Block>, h: Block, o: Block)
    requires Cleared(g, g', gone) && h in g.blocks && h !in gone && h in g.pre && Once(g.pre[h], o)
    ensures h in g'.pre && Once(g'.pre[h], o)
  {
    OnceRemaining(g.pre[h], gone, o);
  }

  lemma AvailableCleared(f: Func, g': Graph, gone: set<Block>, v: Val, b: Block, i: int)
    requires WellFormedFunc(f) && Cleared(f.graph, g', gone) && Reachable(f.graph, b) && InScope(f, v, b, i)
    ensures InScope(f.(graph := g'), v, b, i)
  {
    hide Cleared, WellFormed, Dominates, Reachable;
    var f' := f.(graph := g');
    SameEntry(f.graph, g', gone);
    ReachCleared(f.graph, g', gone, b);
    if v.Res? && Available(f, v.id, b, i) {
      var c, j :| DefinedAt(f, v.id, c, j) && ((c == b && j < i) || StrictlyDominates(f.graph, c, b));
      if c != b {
        DominatorReachable(f.graph, c, b);
        ReachCleared(f.graph, g', gone, c);
        DominatesCleared(f.graph, g', gone, c, b);
      }
      assert DefinedAt(f', v.id, c, j) && ((c == b && j < i) || StrictlyDominates(g', c, b));
    } else if v.Res? {
      var c, k :| PhiAt(f, v.id, c, k) && Dominates(f.graph, c, b);
      DominatorReachable(f.graph, c, b);
      ReachCleared(f.graph, g', gone, c);
      DominatesCleared(f.graph, g', gone, c, b);
      assert PhiAt(f', v.id, c, k) && Dominates(g', c, b);
    }
  }

  lemma ApartCleared(f: Func, g': Graph, gone: set<Block>)
    requires IdsApart(f) && Cleared(f.graph, g', gone)
    ensures IdsApart(f.(graph := g'))
  {
    hide Cleared;
    var f' := f.(graph := g');
    SameEntry(f.graph, g', gone);
    assert forall id, b, i :: (DefinedAt(f', id, b, i) ==> DefinedAt(f, id, b, i)) && (PhiAt(f', id, b, i) ==> PhiAt(f, id, b, i));
  }

  lemma SsaCleared(f: Func, g': Graph, gone: set<Block>)
    requires WellFormedFunc(f) && SsaForm(f) && Cleared(f.graph, g', gone) && WellFormedFunc(f.(graph := g'))
    ensures SsaForm(f.(graph := g'))
  {
    hide Cleared, WellFormed, Reachable, InScope, Edge, IdsApart;
    var f' := f.(graph := g');
    SameEntry(f.graph, g', gone);
    ApartCleared(f, g', gone);
    forall b | b in g'.blocks && Reachable(g', b) ensures BodyReady(f', b) && TermReady(f', b) {
      ReachCleared(f.graph, g', gone, b);
      assert BodyReady(f, b) && TermReady(f, b);
      forall v, i | InScope(f, v, b, i) ensures InScope(f', v, b, i) {
        AvailableCleared(f, g', gone, v, b, i);
      }
    }
    forall u, b | Edge(g', u, b) ensures u in f.body && b in f.phis && Edge(f.graph, u, b) {
      ClearedEdge(f.graph, g', gone, u, b);
      EdgeEnds(f, u, b);
    }
    forall u, b | Edge(g', u, b) && Reachable(g', u) ensures EdgeReady(f', u, b) {
      ReachCleared(f.graph, g', gone, u);
      assert EdgeReady(f, u, b);
      forall v, i | InScope(f, v, u, i) ensures InScope(f', v, u, i) {
        AvailableCleared(f, g', gone, v, u, i);
      }
    }
  }

  /** Clearing keeps the form. */
  lemma FormCleared(f: Func, g': Graph, gone: set<Block>)
    requires Form(f) && Cleared(f.graph, g', gone) && WellFormedFunc(f.(graph := g'))
    ensures Form(f.(graph := g'))
  {
    hide Cleared, WellFormed, Reachable, CleanEntry, IsHeader, SsaForm;
    var f' := f.(graph := g');
    SsaCleared(f, g', gone);
    SameEntry(f.graph, g', gone);
    forall u, v ensures Edge(g', u, v) <==> Edge(f.graph, u, v) && u !in gone {
      ClearedEdge(f.graph, g', gone, u, v);
    }
    forall b ensures (Reachable(g', b) <==> Reachable(f.graph, b)) && (Reachable(f.graph, b) ==> b !in gone) {
      ReachCleared(f.graph, g', gone, b);
    }
    assert LoopGraph(g');
    assert PairsOnEdges(f');
    forall h | IsHeader(g', h) ensures exists o :: CleanEntry(f', h, o) {
      HeaderCleared(f.graph, g', gone, h);
      var o :| CleanEntry(f, h, o);
      EntryCleared(f, g', gone, h, o);
    }
  }

  // ----- sweeping -----

  function SweptPlace(pure: Pures, kept: set<Id>, instrs: seq<Instr>, i: nat): nat
    requires i <= |instrs|
  {
    |SweptBody(pure, kept, instrs[..i])|
  }

  lemma SweptNext(pure: Pures, kept: set<Id>, instrs: seq<Instr>, i: nat)
    requires i < |instrs|
    ensures SweptBody(pure, kept, instrs[..i + 1]) ==
            SweptBody(pure, kept, instrs[..i]) + if Stays(pure, kept, InstrItem(instrs[i])) then [instrs[i]] else []
  {
    assert instrs[..i + 1][..i] == instrs[..i];
  }

  /** What stays keeps its order. */
  lemma {:induction false} SweptOrder(pure: Pures, kept: set<Id>, instrs: seq<Instr>, i: nat, n: nat)
    requires i < n <= |instrs|
    ensures SweptPlace(pure, kept, instrs, i) <= SweptPlace(pure, kept, instrs, n)
    ensures Stays(pure, kept, InstrItem(instrs[i])) ==>
              SweptPlace(pure, kept, instrs, i) < SweptPlace(pure, kept, instrs, n)
              && SweptBody(pure, kept, instrs[..n])[SweptPlace(pure, kept, instrs, i)] == instrs[i]
    decreases n
  {
    hide Stays;
    SweptNext(pure, kept, instrs, n - 1);
    if i < n - 1 {
      SweptOrder(pure, kept, instrs, i, n - 1);
    }
  }

  lemma {:induction false} SweptOf(pure: Pures, kept: set<Id>, instrs: seq<Instr>, n: nat, k: nat) returns (i: nat)
    requires n <= |instrs| && k < |SweptBody(pure, kept, instrs[..n])|
    ensures i < n && Stays(pure, kept, InstrItem(instrs[i])) && SweptPlace(pure, kept, instrs, i) == k && SweptBody(pure, kept, instrs[..n])[k] == instrs[i]
    decreases n
  {
    hide Stays;
    assert n > 0;
    SweptNext(pure, kept, instrs, n - 1);
    if k < |SweptBody(pure, kept, instrs[..n - 1])| {
      i := SweptOf(pure, kept, instrs, n - 1, k);
    } else {
      i := n - 1;
    }
  }

  lemma SweptAll(pure: Pures, kept: set<Id>, instrs: seq<Instr>)
    ensures SweptPlace(pure, kept, instrs, |instrs|) == |SweptBody(pure, kept, instrs)|
  {
    assert instrs[..|instrs|] == instrs;
  }

  /** Of phis with different identities, those that stay keep theirs. */
  lemma {:induction false} SweptPhisApart(pure: Pures, kept: set<Id>, phis: seq<Phi>)
    requires forall i, j | 0 <= i < j < |phis| :: phis[i].id != phis[j].id
    ensures var left := SweptPhis(pure, kept, phis);
            (forall i, j | 0 <= i < j < |left| :: left[i].id != left[j].id) && forall p | p in left :: p in phis
    decreases |phis|
  {
    hide Stays;
    if phis != [] {
      var init, last := phis[..|phis| - 1], phis[|phis| - 1];
      SweptPhisApart(pure, kept, init);
      assert forall p | p in SweptPhis(pure, kept, init) :: p.id != last.id;
    }
  }

  ghost predicate SweptTo(f: Func, f': Func, pure: Pures, kept: set<Id>)
    requires WellFormedFunc(f)
  {
    Swept(f, f', pure, kept) && NeedsClosed(f, pure, kept) && WellFormedFunc(f')
  }

  lemma SweptParts(f: Func, f': Func, pure: Pures, kept: set<Id>)
    requires WellFormedFunc(f) && SweptTo(f, f', pure, kept)
    ensures f'.graph == f.graph && f'.term == f.term
    ensures forall b | b in f.graph.blocks ::
              b in f.body && b in f'.body && f'.body[b] == SweptBody(pure, kept, f.body[b]) && b in f.phis && b in f'.phis && f'.phis[b] == SweptPhis(pure, kept, f.phis[b])
  {
    hide WellFormed, NeedsClosed;
  }

  lemma DefinitionFromSwept(f: Func, f': Func, pure: Pures, kept: set<Id>, id: Id, c: Block, k: nat) returns (j: nat)
    requires WellFormedFunc(f) && SweptTo(f, f', pure, kept) && DefinedAt(f', id, c, k)
    ensures DefinedAt(f, id, c, j) && SweptPlace(pure, kept, f.body[c], j) == k
  {
    hide SweptTo, WellFormed, SweptBody, SweptPlace, Stays;
    SweptParts(f, f', pure, kept);
    assert f.body[c][..|f.body[c]|] == f.body[c];
    j := SweptOf(pure, kept, f.body[c], |f.body[c]|, k);
  }

  lemma PhiFromSwept(f: Func, f': Func, pure: Pures, kept: set<Id>, id: Id, b: Block, i: int)
    requires WellFormedFunc(f) && SweptTo(f, f', pure, kept) && PhiAt(f', id, b, i)
    ensures b in f.graph.blocks && b in f.phis && exists k :: PhiAt(f, id, b, k)
  {
    hide SweptTo, WellFormed, SweptPhis;
    SweptParts(f, f', pure, kept);
    SweptPhiMembers(pure, kept, f.phis[b]);
    var phi := f'.phis[b][i];
    assert phi in f.phis[b];
    var k :| 0 <= k < |f.phis[b]| && f.phis[b][k] == phi;
    assert PhiAt(f, id, b, k);
  }

  lemma ApartSwept(f: Func, f': Func, pure: Pures, kept: set<Id>)
    requires WellFormedFunc(f) && SweptTo(f, f', pure, kept) && IdsApart(f)
    ensures IdsApart(f')
  {
    hide SweptTo, WellFormed, SweptPlace, SweptBody, SweptPhis;
    SweptParts(f, f', pure, kept);
    forall id, b, i, c, j | DefinedAt(f', id, b, i) && DefinedAt(f', id, c, j) ensures b == c && i == j {
      var x := DefinitionFromSwept(f, f', pure, kept, id, b, i);
      var y := DefinitionFromSwept(f, f', pure, kept, id, c, j);
    }
    forall id, b, i, c, j ensures !(PhiAt(f', id, b, i) && DefinedAt(f', id, c, j)) {
      if PhiAt(f', id, b, i) && DefinedAt(f', id, c, j) {
        PhiFromSwept(f, f', pure, kept, id, b, i);
        var y := DefinitionFromSwept(f, f', pure, kept, id, c, j);
      }
    }
    forall id, b, i, c, j | PhiAt(f', id, b, i) && PhiAt(f', id, c, j) ensures b == c && i == j {
      PhiFromSwept(f, f', pure, kept, id, b, i);
      PhiFromSwept(f, f', pure, kept, id, c, j);
      PhisDiffer(f, b);
      SweptPhisApart(pure, kept, f.phis[b]);
      assert b == c && f'.phis[b] == SweptPhis(pure, kept, f.phis[b]);
      SamePhi(f'.phis[b], i, j);
    }
  }

  lemma SamePhi(phis: seq<Phi>, i: int, j: int)
    requires 0 <= i < |phis| && 0 <= j < |phis| && phis[i].id == phis[j].id && forall x, y | 0 <= x < y < |phis| :: phis[x].id != phis[y].id
    ensures i == j
  {
  }

  lemma PhisDiffer(f: Func, b: Block)
    requires IdsApart(f) && b in f.graph.blocks && b in f.phis
    ensures forall i, j | 0 <= i < j < |f.phis[b]| :: f.phis[b][i].id != f.phis[b][j].id
  {
    assert forall i | 0 <= i < |f.phis[b]| :: PhiAt(f, f.phis[b][i].id, b, i);
  }

  /** What is used by something that stays is still defined before it. */
  lemma InScopeSwept(f: Func, f': Func, pure: Pures, kept: set<Id>, v: Val, b: Block, i: nat)
    requires WellFormedFunc(f) && SweptTo(f, f', pure, kept) && b in f.graph.blocks && i <= |f.body[b]| && InScope(f, v, b, i) && (v.Res? ==> v.id in kept)
    ensures InScope(f', v, b, SweptPlace(pure, kept, f.body[b], i))
  {
    hide SweptTo, WellFormed, SweptPlace, SweptBody, SweptPhis, Dominates;
    SweptParts(f, f', pure, kept);
    if v.Res? && Available(f, v.id, b, i) {
      var c, j :| DefinedAt(f, v.id, c, j) && ((c == b && j < i) || StrictlyDominates(f.graph, c, b));
      DefinitionStays(f, f', pure, kept, v.id, c, j);
      var k := SweptPlace(pure, kept, f.body[c], j);
      if c == b && j < i {
        SweptOrder(pure, kept, f.body[b], j, i);
      }
      assert DefinedAt(f', v.id, c, k) && ((c == b && k < SweptPlace(pure, kept, f.body[b], i)) || StrictlyDominates(f'.graph, c, b));
    } else if v.Res? {
      var c, k :| PhiAt(f, v.id, c, k) && Dominates(f.graph, c, b);
      SweptPhiMembers(pure, kept, f.phis[c]);
      var phi := f.phis[c][k];
      assert phi in f'.phis[c];
      var j :| 0 <= j < |f'.phis[c]| && f'.phis[c][j] == phi;
      assert PhiAt(f', v.id, c, j) && Dominates(f'.graph, c, b);
    }
  }

  lemma DefinitionStays(f: Func, f': Func, pure: Pures, kept: set<Id>, id: Id, c: Block, j: int)
    requires WellFormedFunc(f) && SweptTo(f, f', pure, kept) && DefinedAt(f, id, c, j) && id in kept
    ensures 0 <= j < |f.body[c]| && Stays(pure, kept, InstrItem(f.body[c][j])) && DefinedAt(f', id, c, SweptPlace(pure, kept, f.body[c], j))
  {
    hide SweptTo, WellFormed, SweptPlace, SweptBody;
    SweptParts(f, f', pure, kept);
    assert f.body[c][..|f.body[c]|] == f.body[c];
    SweptOrder(pure, kept, f.body[c], j, |f.body[c]|);
    SweptAll(pure, kept, f.body[c]);
  }

  /** An operand of an item that stays is kept, if it is defined at all. */
  lemma OperandKept(f: Func, f': Func, pure: Pures, kept: set<Id>, b: Block, item: Item, v: Val)
    requires WellFormedFunc(f) && SweptTo(f, f', pure, kept) && b in f.graph.blocks && ItemAt(f, b, item) && Stays(pure, kept, item) && v in Operands(item)
    requires exists c, i :: InScope(f, v, c, i)
    ensures v.Res? ==> v.id in kept
  {
    hide WellFormed, Stays, IsCritical;
    assert ItemIn(f, item);
    if v.Res? {
      var c, i :| InScope(f, v, c, i);
      ScopeDefined(f, v, c, i);
    }
  }

  lemma ScopeDefined(f: Func, v: Val, c: Block, i: int)
    requires WellFormedFunc(f) && v.Res? && InScope(f, v, c, i)
    ensures DefinedIn(f, v.id)
  {
    hide WellFormed, Dominates;
    if Available(f, v.id, c, i) {
      var d, j :| DefinedAt(f, v.id, d, j);
      assert ItemAt(f, d, InstrItem(f.body[d][j]));
      assert ItemIn(f, InstrItem(f.body[d][j]));
    } else {
      var d, k :| PhiAt(f, v.id, d, k);
      assert ItemAt(f, d, PhiItem(f.phis[d][k]));
      assert ItemIn(f, PhiItem(f.phis[d][k]));
    }
  }

  lemma BlockReadySwept(f: Func, f': Func, pure: Pures, kept: set<Id>, b: Block)
    requires WellFormedFunc(f) && SweptTo(f, f', pure, kept) && b in f.graph.blocks && BodyReady(f, b) && TermReady(f, b)
    ensures b in f'.body && b in f'.term && BodyReady(f', b) && TermReady(f', b)
  {
    hide SweptTo, WellFormed, SweptPlace, SweptBody, SweptPhis, InScope, Stays;
    SweptParts(f, f', pure, kept);
    assert f.body[b][..|f.body[b]|] == f.body[b];
    SweptAll(pure, kept, f.body[b]);
    forall k, v | 0 <= k < |f'.body[b]| && v in Uses(f'.body[b][k]) ensures InScope(f', v, b, k) {
      var i := SweptOf(pure, kept, f.body[b], |f.body[b]|, k);
      assert ItemAt(f, b, InstrItem(f.body[b][i]));
      OperandKept(f, f', pure, kept, b, InstrItem(f.body[b][i]), v);
      InScopeSwept(f, f', pure, kept, v, b, i);
    }
    forall v | v in TermUses(f.term[b]) ensures InScope(f', v, b, |f'.body[b]|) {
      TermStays(pure, kept, f.term[b]);
      assert ItemAt(f, b, TermItem(f.term[b]));
      OperandKept(f, f', pure, kept, b, TermItem(f.term[b]), v);
      InScopeSwept(f, f', pure, kept, v, b, |f.body[b]|);
    }
  }

  lemma TermStays(pure: Pures, kept: set<Id>, t: Term)
    ensures Stays(pure, kept, TermItem(t))
  {
  }

  lemma EdgeReadySwept(f: Func, f': Func, pure: Pures, kept: set<Id>, u: Block, b: Block)
    requires WellFormedFunc(f) && SweptTo(f, f', pure, kept) && Edge(f.graph, u, b) && u in f.body && b in f.phis && EdgeReady(f, u, b)
    ensures u in f'.body && b in f'.phis && EdgeReady(f', u, b)
  {
    hide SweptTo, WellFormed, SweptPlace, SweptBody, SweptPhis, InScope;
    SweptParts(f, f', pure, kept);
    EdgeBlocks(f, u, b);
    SweptAll(pure, kept, f.body[u]);
    SweptPhiMembers(pure, kept, f.phis[b]);
    forall k, v | 0 <= k < |f'.phis[b]| && Incoming(f'.phis[b][k].pairs, u) == Some(v) ensures InScope(f', v, u, |f'.body[u]|) {
      var phi := f'.phis[b][k];
      assert phi in f.phis[b];
      var i :| 0 <= i < |f.phis[b]| && f.phis[b][i] == phi;
      assert ItemAt(f, b, PhiItem(phi));
      PairIncoming(phi.pairs, u);
      OperandKept(f, f', pure, kept, b, PhiItem(phi), v);
      InScopeSwept(f, f', pure, kept, v, u, |f.body[u]|);
    }
  }

  lemma EdgeBlocks(f: Func, u: Block, b: Block)
    requires WellFormedFunc(f) && Edge(f.graph, u, b)
    ensures u in f.graph.blocks && b in f.graph.blocks
  {
  }

  lemma SsaSwept(f: Func, f': Func, pure: Pures, kept: set<Id>)
    requires WellFormedFunc(f) && SsaForm(f) && SweptTo(f, f', pure, kept)
    ensures SsaForm(f')
  {
    hide SweptTo, WellFormed, Reachable, BodyReady, TermReady, EdgeReady, IdsApart, Edge;
    SweptParts(f, f', pure, kept);
    ApartSwept(f, f', pure, kept);
    SweptFormed(f, f', pure, kept);
    forall b | b in f'.graph.blocks && Reachable(f'.graph, b) ensures BodyReady(f', b) && TermReady(f', b) {
      BlockReadySwept(f, f', pure, kept, b);
    }
    forall u, b | Edge(f'.graph, u, b) ensures u in f.body && b in f.phis && u in f'.body && b in f'.phis {
      EdgeEnds(f, u, b);
      EdgeBlocks(f, u, b);
    }
    forall u, b | Edge(f'.graph, u, b) && Reachable(f'.graph, u) ensures EdgeReady(f', u, b) {
      EdgeReadySwept(f, f', pure, kept, u, b);
    }
  }

  lemma SweptFormed(f: Func, f': Func, pure: Pures, kept: set<Id>)
    requires WellFormedFunc(f) && SweptTo(f, f', pure, kept)
    ensures WellFormedFunc(f')
  {
    hide Swept, NeedsClosed, WellFormed;
  }

  /** Sweeping keeps the form. */
  lemma FormSwept(f: Func, f': Func, pure: Pures, kept: set<Id>)
    requires Form(f) && SweptTo(f, f', pure, kept)
    ensures Form(f')
  {
    hide SweptTo, WellFormed, Reachable, IsHeader, SsaForm, InLoop, LoopGraph, LatchesBranchBack, Edge;
    SsaSwept(f, f', pure, kept);
    SweptFormed(f, f', pure, kept);
    SweptParts(f, f', pure, kept);
    forall b, phi | b in f.graph.blocks && phi in f'.phis[b] ensures phi in f.phis[b] {
      SweptPhiMembers(pure, kept, f.phis[b]);
    }
    forall b, k, v, u | b in f'.graph.blocks && b in f'.phis && 0 <= k < |f'.phis[b]| && (v, u) in f'.phis[b][k].pairs
      ensures Edge(f'.graph, u, b) && Reachable(f'.graph, u)
    {
      var phi := f'.phis[b][k];
      assert phi in f.phis[b];
      var i :| 0 <= i < |f.phis[b]| && f.phis[b][i] == phi;
    }
    forall h | IsHeader(f'.graph, h) ensures exists o :: CleanEntry(f', h, o) {
      var o :| CleanEntry(f, h, o);
      forall k, v, u | 0 <= k < |f'.phis[h]| && (v, u) in f'.phis[h][k].pairs ensures u == o || (InLoop(f'.graph, h, u) && Edge(f'.graph, u, h)) {
        var phi := f'.phis[h][k];
        assert phi in f.phis[h];
        var i :| 0 <= i < |f.phis[h]| && f.phis[h][i] == phi;
      }
      assert CleanEntry(f', h, o);
    }
  }
}
