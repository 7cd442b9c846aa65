/** The loops of a function while operations are moved out of them one loop after the other. */
module InvariantLoops {
  import opened Common
  import opened Cfg
  import opened NaturalLoops
  import opened LoopNest
  import opened Ir
  import opened Ssa
  import opened Preheaders
  import opened Hoisting
  import opened HoistedForm
  import opened LoopForm

  /** Neither a store nor a call of the kind that stays. */
  predicate Movable(impure: bool, instr: Instr) {
    match instr
    case Load(_, _) => true
    case Store(_, _) => false
    case Op(_, op, _) => !op.StorePtr? && !(op.Call? && impure)
  }

  /** Some operand is defined in the loop. */
  ghost predicate UsesLoop(f: Func, h: Block, instr: Instr) {
    exists v :: v in Uses(instr) && v.Res? && DefinedInLoop(f, h, v.id)
  }

  /** Nothing can be moved out of the loop any more. */
  ghost predicate Settled(f: Func, impure: bool, h: Block) {
    forall b, i | InLoop(f.graph, h, b) && b in f.graph.blocks && b in f.body && 0 <= i < |f.body[b]| && Movable(impure, f.body[b][i]) :: UsesLoop(f, h, f.body[b][i])
  }

  lemma InLoopBlock(g: Graph, h: Block, b: Block)
    requires LoopGraph(g) && InLoop(g, h, b)
    ensures b in g.blocks && h in g.blocks
  {
    LoopDominated(g, h, b);
    ReachableInBlocks(g, b);
    DominatorReachable(g, h, b);
    ReachableInBlocks(g, h);
  }

  lemma InLoopTransitive(g: Graph, a: Block, b: Block, c: Block)
    requires LoopGraph(g) && InLoop(g, a, b) && InLoop(g, b, c)
    ensures InLoop(g, a, c)
  {
    if a != b {
      NotMutual(g, a, b);
      BlockInside(g, b, a, c);
    }
  }

  lemma NotMutual(g: Graph, a: Block, b: Block)
    requires LoopGraph(g) && InLoop(g, a, b) && a != b
    ensures !InLoop(g, b, a)
  {
    hide InLoop;
    if InLoop(g, b, a) {
      LoopDominated(g, a, b);
      LoopDominated(g, b, a);
      DominatesAntisymmetric(g, a, b);
    }
  }

  // ----- the plan for one loop -----

  lemma EntryPlan(f: Func, p: Plan)
    requires WellFormedFunc(f) && IsHeader(f.graph, p.header) && CleanEntry(f, p.header, p.outside) && p.preheader !in f.graph.blocks
    ensures EnteredOnce(f, p) && PairsAtHeader(f, p)
  {
    hide InLoop;
  }

  // ----- every loop keeps its entry -----

  /** The lists of predecessors and successors change at the two ends of the edge only. */
  ghost predicate ListsChanged(g: Graph, g': Graph, p: Plan) {
    && (forall b | b in g.blocks && b != p.header :: b in g'.pre && b in g.pre && g'.pre[b] == g.pre[b])
    && (forall b | b in g.blocks && b != p.outside :: b in g'.succ && b in g.succ && g'.succ[b] == g.succ[b])
    && p.header in g'.pre && Once(g'.pre[p.header], p.preheader)
  }

  lemma OtherLatches(f: Func, f': Func, p: Plan, k: Block)
    requires Preheadered(f, f', p) && ListsChanged(f.graph, f'.graph, p) && LatchesBranchBack(f.graph, k) && k in f.graph.blocks
    ensures LatchesBranchBack(f'.graph, k)
  {
    hide Hoistable, SsaForm, Hoisted, WellFormedFunc;
    NotNew(f, f', p, k);
    forall l | IsLatch(f'.graph, k, l) ensures l in f'.graph.succ && |f'.graph.succ[l]| > 0 && f'.graph.succ[l][0] == k {
      LatchKept(f.graph, f'.graph, p.outside, p.header, p.preheader, k, l);
      assert IsLatch(f.graph, k, l) && l in f.graph.blocks && l != p.outside;
    }
  }

  lemma OtherEntry(f: Func, f': Func, p: Plan, k: Block, o: Block)
    requires Preheadered(f, f', p) && ListsChanged(f.graph, f'.graph, p) && CleanEntry(f, k, o) && k != p.header
    ensures CleanEntry(f', k, o)
  {
    hide Preheadered, InLoop, LatchesBranchBack, ListsChanged, PairsFrom, Edge;
    SplitParts(f, f', p);
    NotNew(f, f', p, k);
    NotNew(f, f', p, o);
    LoopKept(f.graph, f'.graph, p.outside, p.header, p.preheader, k, o);
    TermsAfter(f, f', p);
    OtherLatches(f, f', p, k);
    OtherPairs(f, f', p, k, o);
    forall u | Edge(f'.graph, u, k) ensures u == o || InLoop(f'.graph, k, u) {
      NewEdges(f.graph, f'.graph, p.outside, p.header, p.preheader, u, k);
      LoopKept(f.graph, f'.graph, p.outside, p.header, p.preheader, k, u);
    }
    assert k in f'.graph.pre && Once(f'.graph.pre[k], o) by {
      OtherLists(f.graph, f'.graph, p, k);
    }
  }

  lemma OtherLists(g: Graph, g': Graph, p: Plan, k: Block)
    requires ListsChanged(g, g', p) && k in g.blocks && k != p.header
    ensures k in g'.pre && k in g.pre && g'.pre[k] == g.pre[k]
  {
  }

  lemma SplitParts(f: Func, f': Func, p: Plan)
    requires Preheadered(f, f', p)
    ensures EdgeSplit(f.graph, f'.graph, p.outside, p.header, p.preheader) && OnlyEntry(f.graph, p.outside, p.header)
    ensures WellFormedFunc(f) && WellFormedFunc(f') && LoopGraph(f.graph) && f'.graph.entry == f.graph.entry
    ensures p.header in f.graph.blocks && p.outside in f.graph.blocks && p.preheader !in f.graph.blocks && IsHeader(f.graph, p.header)
    ensures forall b :: b in f'.graph.blocks <==> b in f.graph.blocks || b == p.preheader
    ensures p.header != f.graph.entry && !InLoop(f.graph, p.header, p.outside) && EnteredOnce(f, p)
  {
    hide Hoistable, Hoisted, SsaForm, OnlyEntry, InLoop, IsHeader, WellFormedFunc, LoopGraph;
    PlanParts(f, p);
  }

  lemma OtherPairs(f: Func, f': Func, p: Plan, k: Block, o: Block)
    requires Preheadered(f, f', p) && k in f.graph.blocks && k != p.header && PairsFrom(f, k, o)
    ensures PairsFrom(f', k, o)
  {
    hide Preheadered, InLoop;
    SplitParts(f, f', p);
    PhisAfter(f, f', p);
    forall i, v, u | 0 <= i < |f'.phis[k]| && (v, u) in f'.phis[k][i].pairs ensures u == o || (InLoop(f'.graph, k, u) && Edge(f'.graph, u, k)) {
      PairsAfter(f, f', p, k, i, v, u);
      if InLoop(f.graph, k, u) {
        InLoopBlock(f.graph, k, u);
        LoopKept(f.graph, f'.graph, p.outside, p.header, p.preheader, k, u);
      }
    }
  }

  /** The loop itself is entered from the preheader now. */
  lemma OwnEntry(f: Func, f': Func, p: Plan)
    requires Preheadered(f, f', p) && ListsChanged(f.graph, f'.graph, p) && LatchesBranchBack(f.graph, p.header) && PairsFrom(f, p.header, p.outside)
    ensures CleanEntry(f', p.header, p.preheader)
  {
    hide Preheadered, InLoop, LatchesBranchBack, PairsFrom, Edge, IsHeader, EnteredOnce;
    SplitParts(f, f', p);
    NewInLoop(f.graph, f'.graph, p.outside, p.header, p.preheader, p.header);
    TermsAfter(f, f', p);
    OtherLatches(f, f', p, p.header);
    OwnPairs(f, f', p);
    forall u | Edge(f'.graph, u, p.header) ensures u == p.preheader || InLoop(f'.graph, p.header, u) {
      NewEdges(f.graph, f'.graph, p.outside, p.header, p.preheader, u, p.header);
      if u != p.preheader {
        EnteredFrom(f, p, u);
        LoopKept(f.graph, f'.graph, p.outside, p.header, p.preheader, p.header, u);
      }
    }
  }

  lemma EnteredFrom(f: Func, p: Plan, u: Block)
    requires EnteredOnce(f, p) && Edge(f.graph, u, p.header)
    ensures u == p.outside || InLoop(f.graph, p.header, u)
  {
  }

  lemma OwnPairs(f: Func, f': Func, p: Plan)
    requires Preheadered(f, f', p) && PairsFrom(f, p.header, p.outside)
    ensures PairsFrom(f', p.header, p.preheader)
  {
    hide Preheadered, InLoop, OnlyEntry, LoopGraph;
    SplitParts(f, f', p);
    PhisAfter(f, f', p);
    forall k, v, u | 0 <= k < |f'.phis[p.header]| && (v, u) in f'.phis[p.header][k].pairs
      ensures u == p.preheader || (InLoop(f'.graph, p.header, u) && Edge(f'.graph, u, p.header))
    {
      OwnLabels(f, f', p, k, v, u);
      if InLoop(f.graph, p.header, u) {
        InLoopBlock(f.graph, p.header, u);
        LoopKept(f.graph, f'.graph, p.outside, p.header, p.preheader, p.header, u);
      }
    }
  }

  lemma OwnLabels(f: Func, f': Func, p: Plan, k: nat, v: Val, u: Block)
    requires Preheadered(f, f', p) && p.header in f.graph.blocks && p.header in f.phis && k < |f.phis[p.header]| && p.header in f'.phis && k < |f'.phis[p.header]|
    requires (v, u) in f'.phis[p.header][k].pairs && PairsFrom(f, p.header, p.outside)
    ensures u == p.preheader || (u != p.outside && InLoop(f.graph, p.header, u) && Edge(f.graph, u, p.header))
  {
    hide SsaForm, OnlyEntry, Without, IdsOf, MovedOk, ValuesOk, LoopGraph, InLoop, EdgeSplit, WellFormed, PairsAtHeader;
    assert PhisMoved(f, p, p.header, f.phis[p.header], f'.phis[p.header]);
    var pairs := f.phis[p.header][k].pairs;
    var i :| 0 <= i < |pairs| && Relabelled(f, p, pairs)[i] == (v, u);
  }

  lemma CleanKept(f: Func, f': Func, p: Plan)
    requires Preheadered(f, f', p) && ListsChanged(f.graph, f'.graph, p) && CleanLoops(f)
    ensures CleanLoops(f')
  {
    hide Preheadered, InLoop, IsHeader, CleanEntry, OnlyEntry, ListsChanged;
    SplitParts(f, f', p);
    forall k | IsHeader(f'.graph, k) ensures exists o :: CleanEntry(f', k, o) {
      NewNoHeader(f.graph, f'.graph, p.outside, p.header, p.preheader);
      HeaderKept(f.graph, f'.graph, p.outside, p.header, p.preheader, k);
      var o :| CleanEntry(f, k, o);
      if k == p.header {
        OneEntry(f, p, o);
        EntryLatches(f, k, o);
        OwnEntry(f, f', p);
      } else {
        OtherEntry(f, f', p, k, o);
      }
    }
  }

  lemma OneEntry(f: Func, p: Plan, o: Block)
    requires EnteredOnce(f, p) && CleanEntry(f, p.header, o) && WellFormedFunc(f)
    ensures o == p.outside
  {
    hide InLoop;
    assert p.header in f.graph.succ[o] && Edge(f.graph, o, p.header);
  }

  lemma EntryLatches(f: Func, h: Block, o: Block)
    requires CleanEntry(f, h, o)
    ensures LatchesBranchBack(f.graph, h) && PairsFrom(f, h, o)
  {
  }

  // ----- the instructions of the loops -----

  /** An instruction of the function that comes out was one of the same block, or has been moved. */
  lemma InstrFrom(f: Func, f': Func, p: Plan, b: Block, k: nat) returns (i: nat)
    requires Preheadered(f, f', p) && b in f'.graph.blocks && b in f'.body && k < |f'.body[b]|
    ensures b == p.preheader ==> k < |p.moved| && f'.body[b][k] == p.moved[k]
    ensures b != p.preheader ==> b in f.graph.blocks && b in f.body && i < |f.body[b]| && f.body[b][i] == f'.body[b][k] && !Leaves(IdsOf(p.moved), f.body[b][i])
  {
    hide Preheadered, Without, IdsOf, MovedOk, Leaves;
    BodiesAfter(f, f', p);
    i := k;
    if b != p.preheader {
      assert f.body[b][..|f.body[b]|] == f.body[b];
      i := PlaceOf(IdsOf(p.moved), f.body[b], |f.body[b]|, k);
    }
  }

  lemma RegistersKept(f: Func, f': Func, p: Plan)
    requires Preheadered(f, f', p) && RegisterLoops(f) && LoopGraph(f'.graph)
    ensures RegisterLoops(f')
  {
    hide Preheadered, InLoop, OnlyEntry, IdsOf, OperandsReady, OfLoop, LoopGraph, EnteredOnce;
    SplitParts(f, f', p);
    BodiesAfter(f, f', p);
    forall h, b, k | InLoop(f'.graph, h, b) && b in f'.body && 0 <= k < |f'.body[b]| ensures !f'.body[b][k].Load? {
      InLoopBlock(f'.graph, h, b);
      var i := InstrFrom(f, f', p, b, k);
      if b != p.preheader {
        HeaderOld(f, f', p, h, b);
        LoopKept(f.graph, f'.graph, p.outside, p.header, p.preheader, h, b);
      }
    }
  }

  lemma HeaderOld(f: Func, f': Func, p: Plan, h: Block, b: Block)
    requires Preheadered(f, f', p) && InLoop(f'.graph, h, b)
    ensures h != p.preheader
  {
    hide Preheadered;
    SplitParts(f, f', p);
    NewNoHeader(f.graph, f'.graph, p.outside, p.header, p.preheader);
  }

  lemma FitKept(f: Func, f': Func, p: Plan)
    requires Fit(f) && Preheadered(f, f', p) && ListsChanged(f.graph, f'.graph, p)
    ensures Fit(f')
  {
    hide Preheadered, OnlyEntry, SsaForm, RegisterLoops, CleanLoops, WellFormed, InLoop, ListsChanged, EnteredOnce;
    SplitParts(f, f', p);
    SsaKept(f, f', p);
    LoopGraphKept(f.graph, f'.graph, p.outside, p.header, p.preheader);
    RegistersKept(f, f', p);
    CleanKept(f, f', p);
  }

  // ----- loops that are settled -----

  ghost predicate AllMovable(impure: bool, moved: seq<Instr>) {
    forall k | 0 <= k < |moved| :: Movable(impure, moved[k])
  }

  /** Nothing is moved out of a settled loop inside: whatever it would need would have to be moved before. */
  lemma {:induction false} SettledStays(f: Func, p: Plan, impure: bool, c: Block, k: nat)
    requires IdsApart(f) && MovedOk(f, p) && AllMovable(impure, p.moved) && Settled(f, impure, c) && k < |p.moved|
    requires forall b | InLoop(f.graph, c, b) :: InLoop(f.graph, p.header, b)
    ensures !OfLoop(f, c, p.moved[k])
    decreases k
  {
    hide InLoop, Movable, IdsApart;
    if OfLoop(f, c, p.moved[k]) {
      var b, i :| InLoop(f.graph, c, b) && b in f.graph.blocks && b in f.body && 0 <= i < |f.body[b]| && f.body[b][i] == p.moved[k];
      assert OperandsReady(f, p.header, p.moved[..k], p.moved[k]);
      assert UsesLoop(f, c, f.body[b][i]);
      var v :| v in Uses(p.moved[k]) && v.Res? && DefinedInLoop(f, c, v.id);
      var q := MovedOperand(f, p, c, k, v.id);
      SettledStays(f, p, impure, c, q);
    }
  }

  /** An operand that is defined in an inner loop has been moved before, out of that loop. */
  lemma MovedOperand(f: Func, p: Plan, c: Block, k: nat, id: Id) returns (q: nat)
    requires IdsApart(f) && MovedOk(f, p) && k < |p.moved| && DefinedInLoop(f, c, id)
    requires forall b | InLoop(f.graph, c, b) :: InLoop(f.graph, p.header, b)
    requires id in IdsOf(p.moved[..k]) || !DefinedInLoop(f, p.header, id)
    ensures q < k && OfLoop(f, c, p.moved[q]) && p.moved[q].Op? && p.moved[q].id == id
  {
    hide InLoop, OperandsReady;
    var b, i :| InLoop(f.graph, c, b) && (DefinedAt(f, id, b, i) || PhiAt(f, id, b, i));
    assert DefinedInLoop(f, p.header, id);
    var m :| m in p.moved[..k] && m.Op? && m.id == id;
    q :| 0 <= q < k && p.moved[..k][q] == m;
    assert OfLoop(f, p.header, p.moved[q]);
    var d, j :| InLoop(f.graph, p.header, d) && d in f.graph.blocks && d in f.body && 0 <= j < |f.body[d]| && f.body[d][j] == m;
    assert DefinedAt(f, id, d, j);
    assert d == b && j == i;
  }

  lemma DefinitionStays(f: Func, f': Func, p: Plan, c: Block, id: Id)
    requires Preheadered(f, f', p) && c != p.preheader && DefinedInLoop(f, c, id) && id !in IdsOf(p.moved)
    ensures DefinedInLoop(f', c, id)
  {
    hide Preheadered, InLoop, OnlyEntry, IdsOf, Place, EnteredOnce;
    SplitParts(f, f', p);
    var b, i :| InLoop(f.graph, c, b) && (DefinedAt(f, id, b, i) || PhiAt(f, id, b, i));
    LoopKept(f.graph, f'.graph, p.outside, p.header, p.preheader, c, b);
    if DefinedAt(f, id, b, i) {
      DefinitionKept(f, f', p, id, b, i);
    } else {
      PhisSameIds(f, f', p, id, b, i);
    }
  }

  /** A loop without the preheader whose instructions use it still, uses it afterwards. */
  lemma SettledFrom(f: Func, f': Func, p: Plan, impure: bool, c: Block)
    requires Preheadered(f, f', p) && LoopGraph(f'.graph) && c != p.preheader && !InLoop(f'.graph, c, p.preheader)
    requires forall b, i | InLoop(f.graph, c, b) && b in f.graph.blocks && b in f.body && 0 <= i < |f.body[b]| && Movable(impure, f.body[b][i]) && !Leaves(IdsOf(p.moved), f.body[b][i]) ::
               exists v :: v in Uses(f.body[b][i]) && v.Res? && v.id !in IdsOf(p.moved) && DefinedInLoop(f, c, v.id)
    ensures Settled(f', impure, c)
  {
    hide Preheadered, InLoop, OnlyEntry, IdsOf, Leaves, EnteredOnce, DefinedInLoop, Movable, LoopGraph;
    SplitParts(f, f', p);
    BodiesAfter(f, f', p);
    forall b, k | InLoop(f'.graph, c, b) && b in f'.graph.blocks && b in f'.body && 0 <= k < |f'.body[b]| && Movable(impure, f'.body[b][k])
      ensures UsesLoop(f', c, f'.body[b][k])
    {
      var i := InstrFrom(f, f', p, b, k);
      LoopKept(f.graph, f'.graph, p.outside, p.header, p.preheader, c, b);
      var v :| v in Uses(f.body[b][i]) && v.Res? && v.id !in IdsOf(p.moved) && DefinedInLoop(f, c, v.id);
      DefinitionStays(f, f', p, c, v.id);
    }
  }

  /** A settled loop that is not around this one stays settled. */
  lemma SettledKept(f: Func, f': Func, p: Plan, impure: bool, c: Block)
    requires Preheadered(f, f', p) && AllMovable(impure, p.moved) && LoopGraph(f'.graph) && Settled(f, impure, c) && c in f.graph.blocks && c != p.header && !InLoop(f.graph, c, p.header)
    ensures Settled(f', impure, c)
  {
    hide Preheadered, InLoop, OnlyEntry, IdsOf, Leaves, EnteredOnce, DefinedInLoop, Movable, LoopGraph;
    SplitParts(f, f', p);
    NewInLoop(f.graph, f'.graph, p.outside, p.header, p.preheader, c);
    forall b, i | InLoop(f.graph, c, b) && b in f.graph.blocks && b in f.body && 0 <= i < |f.body[b]| && Movable(impure, f.body[b][i]) && !Leaves(IdsOf(p.moved), f.body[b][i])
      ensures exists v :: v in Uses(f.body[b][i]) && v.Res? && v.id !in IdsOf(p.moved) && DefinedInLoop(f, c, v.id)
    {
      assert UsesLoop(f, c, f.body[b][i]);
      var v :| v in Uses(f.body[b][i]) && v.Res? && DefinedInLoop(f, c, v.id);
      NotMovedFrom(f, f', p, impure, c, v.id);
    }
    SettledFrom(f, f', p, impure, c);
  }

  /** What such a loop defines is not moved. */
  lemma NotMovedFrom(f: Func, f': Func, p: Plan, impure: bool, c: Block, id: Id)
    requires Preheadered(f, f', p) && AllMovable(impure, p.moved) && Settled(f, impure, c) && c in f.graph.blocks && c != p.header && !InLoop(f.graph, c, p.header) && DefinedInLoop(f, c, id)
    ensures id !in IdsOf(p.moved)
  {
    hide Hoistable, Hoisted, EdgeSplit, OnlyEntry, InLoop, BodyReady, TermReady, EdgeReady, OperandsReady, WellFormed;
    PlanParts(f, p);
    if id in IdsOf(p.moved) {
      var b, i :| InLoop(f.graph, c, b) && (DefinedAt(f, id, b, i) || PhiAt(f, id, b, i));
      MovedDefined(f, p, id);
      var d, j :| DefinedAt(f, id, d, j) && InLoop(f.graph, p.header, d);
      assert d == b && j == i;
      IndexNat(f, id, b, i);
      var k := MovedInLoop(f, p, b, i);
      InsideOf(f.graph, c, p.header, b);
      assert OfLoop(f, c, p.moved[k]);
      SettledStays(f, p, impure, c, k);
    }
  }

  lemma InsideOf(g: Graph, c: Block, h: Block, b: Block)
    requires LoopGraph(g) && c != h && InLoop(g, c, b) && InLoop(g, h, b) && !InLoop(g, c, h)
    ensures forall x | InLoop(g, c, x) :: InLoop(g, h, x)
  {
    NaturalLoops.HeaderInside(g, c, h, b);
    forall x | InLoop(g, c, x) ensures InLoop(g, h, x) {
      BlockInside(g, c, h, x);
    }
  }

  /** The loop itself is settled when everything left in it uses it. */
  lemma OwnSettled(f: Func, f': Func, p: Plan, impure: bool)
    requires Preheadered(f, f', p) && LoopGraph(f'.graph)
    requires forall b, i | InLoop(f.graph, p.header, b) && b in f.graph.blocks && b in f.body && 0 <= i < |f.body[b]| && Movable(impure, f.body[b][i]) && !Leaves(IdsOf(p.moved), f.body[b][i]) ::
               exists v :: v in Uses(f.body[b][i]) && v.Res? && v.id !in IdsOf(p.moved) && DefinedInLoop(f, p.header, v.id)
    ensures Settled(f', impure, p.header)
  {
    hide Preheadered, InLoop, OnlyEntry, IdsOf, Leaves, EnteredOnce, DefinedInLoop, Movable, LoopGraph;
    SplitParts(f, f', p);
    NewInLoop(f.graph, f'.graph, p.outside, p.header, p.preheader, p.header);
    SettledFrom(f, f', p, impure, p.header);
  }

  // ----- the nest, and which blocks the loops list -----

  /** The parents and sub-loops that were found are right. */
  ghost predicate Nested(g: Graph, n: Nest) {
    && (forall h :: h in n.rec <==> IsHeader(g, h))
    && forall h | h in n.rec :: ParentOk(g, n.rec.Keys, h, n.rec[h]) && SubsOk(n, h, n.rec[h])
  }

  ghost predicate InInner(g: Graph, ks: set<Block>, h: Block, b: Block) {
    exists c :: c in ks && c != h && InLoop(g, h, c) && InLoop(g, c, b)
  }

  /** A loop lists blocks of it, and all others are in a loop inside and do not lead to the header. */
  ghost predicate ListsOk(g: Graph, ks: set<Block>, listed: map<Block, seq<Block>>) {
    forall h | h in ks ::
      && h in listed && (forall b | b in listed[h] :: InLoop(g, h, b))
      && forall b | InLoop(g, h, b) && b !in listed[h] :: InInner(g, ks, h, b) && !Edge(g, b, h)
  }

  /** The parent lists the preheader. */
  function WithNew(listed: map<Block, seq<Block>>, parent: Option<Block>, b: Block): map<Block, seq<Block>> {
    if parent.Some? && parent.value in listed then listed[parent.value := listed[parent.value] + [b]] else listed
  }

  lemma HeaderBlock(g: Graph, h: Block)
    requires LoopGraph(g) && IsHeader(g, h)
    ensures h in g.blocks && InLoop(g, h, h)
  {
    InLoopBlock(g, h, h);
  }

  lemma NestedKept(f: Func, f': Func, p: Plan, n: Nest)
    requires Preheadered(f, f', p) && Nested(f.graph, n)
    ensures Nested(f'.graph, n)
  {
    hide Preheadered, InLoop, OnlyEntry, IsHeader, EnteredOnce, LoopGraph, SubsOk, ParentOk;
    SplitParts(f, f', p);
    HeadersKept(f, f', p, n);
    forall q, h | q in n.rec && h in n.rec ensures InLoop(f'.graph, q, h) <==> InLoop(f.graph, q, h) {
      HeaderBlock(f.graph, q);
      HeaderBlock(f.graph, h);
      LoopKept(f.graph, f'.graph, p.outside, p.header, p.preheader, q, h);
    }
    forall h | h in n.rec ensures ParentOk(f'.graph, n.rec.Keys, h, n.rec[h]) {
      ParentSame(f.graph, f'.graph, n, h);
    }
  }

  lemma ParentSame(g: Graph, g': Graph, n: Nest, h: Block)
    requires h in n.rec && ParentOk(g, n.rec.Keys, h, n.rec[h])
    requires forall q, c | q in n.rec && c in n.rec :: InLoop(g', q, c) <==> InLoop(g, q, c)
    ensures ParentOk(g', n.rec.Keys, h, n.rec[h])
  {
    hide InLoop;
  }

  lemma HeadersKept(f: Func, f': Func, p: Plan, n: Nest)
    requires Preheadered(f, f', p) && forall h :: h in n.rec <==> IsHeader(f.graph, h)
    ensures forall h :: h in n.rec <==> IsHeader(f'.graph, h)
  {
    hide Preheadered, InLoop, OnlyEntry, IsHeader, EnteredOnce, LoopGraph;
    SplitParts(f, f', p);
    NewNoHeader(f.graph, f'.graph, p.outside, p.header, p.preheader);
    forall h ensures h in n.rec <==> IsHeader(f'.graph, h) {
      if h != p.preheader {
        HeaderKept(f.graph, f'.graph, p.outside, p.header, p.preheader, h);
      } else if IsHeader(f.graph, h) {
        HeaderBlock(f.graph, h);
      }
    }
  }

  lemma ListsKept(f: Func, f': Func, p: Plan, n: Nest, listed: map<Block, seq<Block>>)
    requires Preheadered(f, f', p) && Nested(f.graph, n) && ListsOk(f.graph, n.rec.Keys, listed) && p.header in n.rec && LoopGraph(f'.graph)
    ensures ListsOk(f'.graph, n.rec.Keys, WithNew(listed, n.rec[p.header].parent, p.preheader))
  {
    hide Preheadered, InLoop, OnlyEntry, EnteredOnce, LoopGraph, ListsOk, InInner;
    var ks, listed' := n.rec.Keys, WithNew(listed, n.rec[p.header].parent, p.preheader);
    forall q | q in ks ensures q in listed && q in listed' && listed[q] <= listed'[q] {
      ListsParts(f.graph, ks, listed, q);
    }
    forall q, b | q in ks && b in listed'[q] ensures InLoop(f'.graph, q, b) {
      ListedIn(f, f', p, n, listed, q, b);
    }
    forall q, b | q in ks && InLoop(f'.graph, q, b) && b !in listed'[q] ensures InInner(f'.graph, ks, q, b) && !Edge(f'.graph, b, q) {
      ListedAll(f, f', p, n, listed, q, b);
    }
    ListsIntro(f'.graph, ks, listed');
  }

  lemma ListsParts(g: Graph, ks: set<Block>, listed: map<Block, seq<Block>>, h: Block)
    requires ListsOk(g, ks, listed) && h in ks
    ensures h in listed && (forall b | b in listed[h] :: InLoop(g, h, b))
    ensures forall b | InLoop(g, h, b) && b !in listed[h] :: InInner(g, ks, h, b) && !Edge(g, b, h)
  {
  }

  lemma ListsIntro(g: Graph, ks: set<Block>, listed: map<Block, seq<Block>>)
    requires forall h | h in ks :: h in listed
    requires forall h, b | h in ks && b in listed[h] :: InLoop(g, h, b)
    requires forall h, b | h in ks && InLoop(g, h, b) && b !in listed[h] :: InInner(g, ks, h, b) && !Edge(g, b, h)
    ensures ListsOk(g, ks, listed)
  {
    hide InLoop, InInner;
  }

  lemma NestedHeader(g: Graph, n: Nest, h: Block)
    requires LoopGraph(g) && Nested(g, n) && h in n.rec
    ensures IsHeader(g, h) && h in g.blocks
  {
    hide ParentOk, SubsOk, LoopGraph, IsHeader;
    HeaderBlock(g, h);
  }

  lemma ParentAround(g: Graph, n: Nest, h: Block, q: Block)
    requires Nested(g, n) && h in n.rec && n.rec[h].parent == Some(q)
    ensures q != h && InLoop(g, q, h)
  {
    hide InLoop, IsHeader, SubsOk;
    assert ParentOk(g, n.rec.Keys, h, n.rec[h]);
  }

  lemma ListedIn(f: Func, f': Func, p: Plan, n: Nest, listed: map<Block, seq<Block>>, q: Block, b: Block)
    requires Preheadered(f, f', p) && Nested(f.graph, n) && ListsOk(f.graph, n.rec.Keys, listed) && p.header in n.rec && q in n.rec
    requires var l := WithNew(listed, n.rec[p.header].parent, p.preheader); q in l && b in l[q]
    ensures InLoop(f'.graph, q, b)
  {
    hide Preheadered, InLoop, OnlyEntry, EnteredOnce, ListsOk, InInner, LoopGraph, Nested, IsHeader;
    SplitParts(f, f', p);
    ListsParts(f.graph, n.rec.Keys, listed, q);
    NestedHeader(f.graph, n, q);
    HeaderBlock(f.graph, q);
    if b in listed[q] {
      InLoopBlock(f.graph, q, b);
      LoopKept(f.graph, f'.graph, p.outside, p.header, p.preheader, q, b);
    } else {
      assert n.rec[p.header].parent == Some(q) && b == p.preheader;
      ParentAround(f.graph, n, p.header, q);
      NewInLoop(f.graph, f'.graph, p.outside, p.header, p.preheader, q);
    }
  }

  lemma ListedAll(f: Func, f': Func, p: Plan, n: Nest, listed: map<Block, seq<Block>>, q: Block, b: Block)
    requires Preheadered(f, f', p) && Nested(f.graph, n) && ListsOk(f.graph, n.rec.Keys, listed) && p.header in n.rec && q in n.rec && LoopGraph(f'.graph)
    requires q in listed && InLoop(f'.graph, q, b)
    requires var l := WithNew(listed, n.rec[p.header].parent, p.preheader); q in l && b !in l[q]
    ensures InInner(f'.graph, n.rec.Keys, q, b) && !Edge(f'.graph, b, q)
  {
    hide Preheadered, InLoop, OnlyEntry, EnteredOnce, ListsOk, LoopGraph, Edge;
    var ks := n.rec.Keys;
    SplitParts(f, f', p);
    ListsParts(f.graph, ks, listed, q);
    HeaderBlock(f.graph, q);
    if Edge(f'.graph, b, q) {
      NewEdges(f.graph, f'.graph, p.outside, p.header, p.preheader, b, q);
    }
    if b == p.preheader {
      NewInLoop(f.graph, f'.graph, p.outside, p.header, p.preheader, q);
      assert ParentOk(f.graph, ks, p.header, n.rec[p.header]);
      var m := n.rec[p.header].parent.value;
      ListsParts(f.graph, ks, listed, m);
      HeaderBlock(f.graph, m);
      LoopKept(f.graph, f'.graph, p.outside, p.header, p.preheader, q, m);
      NewInLoop(f.graph, f'.graph, p.outside, p.header, p.preheader, m);
    } else {
      LoopKept(f.graph, f'.graph, p.outside, p.header, p.preheader, q, b);
      var c :| c in ks && c != q && InLoop(f.graph, q, c) && InLoop(f.graph, c, b);
      HeaderBlock(f.graph, c);
      LoopKept(f.graph, f'.graph, p.outside, p.header, p.preheader, q, c);
      LoopKept(f.graph, f'.graph, p.outside, p.header, p.preheader, c, b);
    }
  }

  // ----- the loops inside a loop -----

  /** The headers of a loop and of the loops inside. */
  ghost function Inside(g: Graph, n: Nest, h: Block): set<Block> {
    set c | c in n.rec && InLoop(g, h, c)
  }

  ghost function Around(g: Graph, n: Nest, c: Block): set<Block> {
    set q | q in n.rec && q != c && InLoop(g, q, c)
  }

  /** A loop inside is one of the sub-loops, or inside one. */
  lemma {:induction false} SubLoopOf(g: Graph, n: Nest, h: Block, c: Block) returns (s: Block)
    requires LoopGraph(g) && Nested(g, n) && h in n.rec && c in n.rec && c != h && InLoop(g, h, c)
    ensures s in n.rec[h].subs && s in n.rec && InLoop(g, s, c)
    decreases Around(g, n, c)
  {
    hide InLoop, LoopGraph;
    assert ParentOk(g, n.rec.Keys, c, n.rec[c]);
    var m := n.rec[c].parent.value;
    HeaderBlock(g, c);
    if m == h {
      s := c;
      assert SubsOk(n, h, n.rec[h]);
    } else {
      AroundLess(g, n, c, m);
      s := SubLoopOf(g, n, h, m);
      InLoopTransitive(g, s, m, c);
    }
  }

  lemma AroundLess(g: Graph, n: Nest, c: Block, m: Block)
    requires LoopGraph(g) && m in n.rec && c in n.rec && m != c && InLoop(g, m, c)
    ensures Around(g, n, m) < Around(g, n, c)
  {
    hide InLoop, LoopGraph;
    forall q | q in n.rec && q != m && InLoop(g, q, m) ensures q != c && InLoop(g, q, c) {
      NotMutual(g, m, c);
      InLoopTransitive(g, q, m, c);
    }
    var a, b := Around(g, n, m), Around(g, n, c);
    assert m in b && m !in a;
  }

  /** The sub-loops of a loop, with what is inside, are smaller, and are all that there is inside. */
  lemma SubsSmaller(g: Graph, n: Nest, h: Block, s: Block)
    requires LoopGraph(g) && Nested(g, n) && h in n.rec && s in n.rec[h].subs
    ensures s in n.rec && s != h && InLoop(g, h, s) && Inside(g, n, s) < Inside(g, n, h) && h !in Inside(g, n, s)
  {
    hide InLoop, LoopGraph;
    assert SubsOk(n, h, n.rec[h]);
    assert ParentOk(g, n.rec.Keys, s, n.rec[s]);
    HeaderBlock(g, h);
    NotMutual(g, h, s);
    forall c | c in n.rec && InLoop(g, s, c) ensures InLoop(g, h, c) {
      InLoopTransitive(g, h, s, c);
    }
    var a, b := Inside(g, n, s), Inside(g, n, h);
    assert h in b && h !in a;
  }
}
