/** What moving operations in front of a loop keeps: definitions before uses, and the form of the other loops. */
module HoistedForm {
  import opened Common
  import opened Cfg
  import opened NaturalLoops
  import opened Ir
  import opened Ssa
  import opened Preheaders
  import opened Hoisting

  /** In this form, a plan needs to be right about the loop only. */
  lemma PlanHoistable(f: Func, p: Plan)
    requires WellFormedFunc(f) && SsaForm(f) && LoopGraph(f.graph) && EnteredOnce(f, p) && MovedOk(f, p) && PairsAtHeader(f, p)
    ensures Hoistable(f, p)
  {
    hide InLoop, WellFormed, EnteredOnce, OperandsReady, PairsAtHeader, Reachable, Available;
    forall id, b, i | id in IdsOf(p.moved) ensures !PhiAt(f, id, b, i) {
      MovedDefined(f, p, id);
    }
    forall id, b | id in IdsOf(p.moved) ensures !PhiInScope(f, id, b) {
    }
    forall b | b in f.graph.blocks && Reachable(f.graph, b) ensures BodyReady(f, b) && TermReady(f, b) {
    }
    forall b, k, u, v | Edge(f.graph, u, b) && Reachable(f.graph, u) && u in f.body && b in f.phis && 0 <= k < |f.phis[b]|
                        && Incoming(f.phis[b][k].pairs, u) == Some(v) && v.Res? && v.id in IdsOf(p.moved)
      ensures Available(f, v.id, u, |f.body[u]|)
    {
      assert EdgeReady(f, u, b);
      assert InScope(f, v, u, |f.body[u]|);
    }
  }

  lemma MovedDefined(f: Func, p: Plan, id: Id)
    requires MovedOk(f, p) && id in IdsOf(p.moved)
    ensures exists c, j :: DefinedAt(f, id, c, j) && InLoop(f.graph, p.header, c)
  {
    hide InLoop, OperandsReady;
    var m :| m in p.moved && m.Op? && m.id == id;
    assert OfLoop(f, p.header, m);
    var c, j :| InLoop(f.graph, p.header, c) && c in f.graph.blocks && c in f.body && 0 <= j < |f.body[c]| && f.body[c][j] == m;
    assert DefinedAt(f, id, c, j);
  }

  // ----- where instructions are afterwards -----

  function Place(moved: set<Id>, instrs: seq<Instr>, i: nat): nat
    requires i <= |instrs|
  {
    |Without(moved, instrs[..i])|
  }

  predicate Leaves(moved: set<Id>, instr: Instr) {
    instr.Op? && instr.id in moved
  }

  lemma PlaceNext(moved: set<Id>, instrs: seq<Instr>, i: nat)
    requires i < |instrs|
    ensures Without(moved, instrs[..i + 1]) == Without(moved, instrs[..i]) + if Leaves(moved, instrs[i]) then [] else [instrs[i]]
  {
    assert instrs[..i + 1][..i] == instrs[..i];
  }

  /** What stays keeps its order. */
  lemma {:induction false} PlaceOrder(moved: set<Id>, instrs: seq<Instr>, i: nat, n: nat)
    requires i < n <= |instrs|
    ensures Place(moved, instrs, i) <= Place(moved, instrs, n)
    ensures Without(moved, instrs[..i]) == Without(moved, instrs[..n])[..Place(moved, instrs, i)]
    ensures !Leaves(moved, instrs[i]) ==>
              Place(moved, instrs, i) < Place(moved, instrs, n) && Without(moved, instrs[..n])[Place(moved, instrs, i)] == instrs[i]
    decreases n
  {
    PlaceNext(moved, instrs, n - 1);
    if i < n - 1 {
      PlaceOrder(moved, instrs, i, n - 1);
    }
  }

  lemma {:induction false} PlaceOf(moved: set<Id>, instrs: seq<Instr>, n: nat, k: nat) returns (i: nat)
    requires n <= |instrs| && k < |Without(moved, instrs[..n])|
    ensures i < n && !Leaves(moved, instrs[i]) && Place(moved, instrs, i) == k && Without(moved, instrs[..n])[k] == instrs[i]
    decreases n
  {
    assert n > 0;
    PlaceNext(moved, instrs, n - 1);
    if k < |Without(moved, instrs[..n - 1])| {
      i := PlaceOf(moved, instrs, n - 1, k);
    } else {
      i := n - 1;
    }
  }

  lemma PlaceAll(moved: set<Id>, instrs: seq<Instr>)
    ensures Place(moved, instrs, |instrs|) == |Without(moved, instrs)|
  {
    assert instrs[..|instrs|] == instrs;
  }

  // ----- the function that comes out -----

  /** f' is f with a preheader, also in its graph. */
  ghost predicate Preheadered(f: Func, f': Func, p: Plan) {
    && Hoistable(f, p) && SsaForm(f) && WellFormedFunc(f') && Hoisted(f, f', p)
    && EdgeSplit(f.graph, f'.graph, p.outside, p.header, p.preheader) && OnlyEntry(f.graph, p.outside, p.header)
  }

  lemma LoopOnlyEntry(f: Func, p: Plan)
    requires LoopGraph(f.graph) && EnteredOnce(f, p)
    ensures OnlyEntry(f.graph, p.outside, p.header)
  {
    if IsLatch(f.graph, p.header, p.outside) {
      LatchInLoop(f.graph, p.header, p.outside);
    }
    forall u | Edge(f.graph, u, p.header) && u != p.outside ensures Dominates(f.graph, p.header, u) {
      LoopDominated(f.graph, p.header, u);
    }
  }

  // ----- definitions -----

  lemma DefinitionKept(f: Func, f': Func, p: Plan, id: Id, c: Block, j: nat)
    requires Preheadered(f, f', p) && DefinedAt(f, id, c, j) && id !in IdsOf(p.moved)
    ensures DefinedAt(f', id, c, Place(IdsOf(p.moved), f.body[c], j))
    ensures forall i: nat | j < i <= |f.body[c]| :: Place(IdsOf(p.moved), f.body[c], j) < Place(IdsOf(p.moved), f.body[c], i)
  {
    hide Hoistable, SsaForm, OnlyEntry, Without, IdsOf;
    var moved := IdsOf(p.moved);
    assert f.body[c][..|f.body[c]|] == f.body[c];
    PlaceOrder(moved, f.body[c], j, |f.body[c]|);
    forall i: nat | j < i <= |f.body[c]| ensures Place(moved, f.body[c], j) < Place(moved, f.body[c], i) {
      PlaceOrder(moved, f.body[c], j, i);
    }
  }

  lemma DefinitionMoved(f: Func, f': Func, p: Plan, k: nat)
    requires Preheadered(f, f', p) && k < |p.moved|
    ensures p.moved[k].Op? && DefinedAt(f', p.moved[k].id, p.preheader, k)
  {
    hide SsaForm, OnlyEntry, IdsOf;
  }

  lemma BodiesAfter(f: Func, f': Func, p: Plan)
    requires Preheadered(f, f', p)
    ensures p.preheader in f'.body && f'.body[p.preheader] == p.moved && p.preheader !in f.graph.blocks
    ensures forall b | b in f.graph.blocks :: b in f.body && b in f'.body && f'.body[b] == Without(IdsOf(p.moved), f.body[b]) && b in f'.graph.blocks
    ensures forall b :: b in f'.graph.blocks <==> b in f.graph.blocks || b == p.preheader
    ensures UniqueIds(f) && MovedOk(f, p)
  {
    hide Hoistable, SsaForm, OnlyEntry, Without, IdsOf, MovedOk, UniqueIds, PhisMoved, WellFormed;
    PlanParts(f, p);
  }

  lemma PlanParts(f: Func, p: Plan)
    requires Hoistable(f, p)
    ensures WellFormedFunc(f) && UniqueIds(f) && MovedOk(f, p) && EnteredOnce(f, p) && LoopGraph(f.graph) && PairsAtHeader(f, p)
  {
    hide WellFormed, MovedOk, EnteredOnce, LoopGraph, UniqueIds, PairsAtHeader;
  }

  lemma DefinitionFrom(f: Func, f': Func, p: Plan, id: Id, c: Block, k: nat) returns (j: nat)
    requires Preheadered(f, f', p) && DefinedAt(f', id, c, k)
    ensures c == p.preheader ==> k < |p.moved| && p.moved[k].Op? && p.moved[k].id == id && id in IdsOf(p.moved)
    ensures c != p.preheader ==> DefinedAt(f, id, c, j) && id !in IdsOf(p.moved) && Place(IdsOf(p.moved), f.body[c], j) == k
  {
    hide Preheadered, Without, OperandsReady, OfLoop, UniqueIds, InLoop;
    BodiesAfter(f, f', p);
    if c == p.preheader {
      j := k;
      assert p.moved[k] in p.moved;
    } else {
      j := OldDefinition(f, p, id, c, k);
    }
  }

  lemma OldDefinition(f: Func, p: Plan, id: Id, c: Block, k: nat) returns (j: nat)
    requires MovedOk(f, p) && UniqueIds(f) && c in f.graph.blocks && c in f.body
    requires k < |Without(IdsOf(p.moved), f.body[c])| && Defines(Without(IdsOf(p.moved), f.body[c])[k]) == Some(id)
    ensures DefinedAt(f, id, c, j) && id !in IdsOf(p.moved) && Place(IdsOf(p.moved), f.body[c], j) == k
  {
    hide Without, UniqueIds, InLoop, MovedOk, IdsOf, Place;
    assert f.body[c][..|f.body[c]|] == f.body[c];
    j := PlaceOf(IdsOf(p.moved), f.body[c], |f.body[c]|, k);
    if !Leaves(IdsOf(p.moved), f.body[c][j]) {
      OthersDefine(f, p, c, j);
    }
  }

  lemma PhisAfter(f: Func, f': Func, p: Plan)
    requires Preheadered(f, f', p)
    ensures p.preheader in f'.phis && f'.phis[p.preheader] == [] && p.preheader !in f.graph.blocks
    ensures forall b | b in f.graph.blocks :: b in f.phis && b in f'.phis && b in f'.graph.blocks && |f'.phis[b]| == |f.phis[b]|
    ensures forall b, k | b in f.graph.blocks && 0 <= k < |f.phis[b]| :: f'.phis[b][k].id == f.phis[b][k].id
    ensures forall b :: b in f'.graph.blocks <==> b in f.graph.blocks || b == p.preheader
  {
    hide SsaForm, OnlyEntry, Without, IdsOf, MovedOk, ValuesOk, PairsAtHeader, EnteredOnce, LoopGraph, Relabelled;
    forall b, k | b in f.graph.blocks && 0 <= k < |f.phis[b]| ensures f'.phis[b][k].id == f.phis[b][k].id {
      assert PhisMoved(f, p, b, f.phis[b], f'.phis[b]);
    }
  }

  lemma PhisSameIds(f: Func, f': Func, p: Plan, id: Id, b: Block, i: int)
    requires Preheadered(f, f', p)
    ensures PhiAt(f', id, b, i) <==> PhiAt(f, id, b, i)
  {
    hide Preheadered;
    PhisAfter(f, f', p);
  }

  lemma IdsStayApart(f: Func, f': Func, p: Plan)
    requires Preheadered(f, f', p)
    ensures IdsApart(f')
  {
    hide Hoistable, Hoisted, EdgeSplit, OnlyEntry, DefinedAt, PhiAt, Place;
    forall id, b, i, c, j | DefinedAt(f', id, b, i) && DefinedAt(f', id, c, j) ensures b == c && i == j {
      OneDefinition(f, f', p, id, b, i, c, j);
    }
    forall id, b, i, c, j ensures !(PhiAt(f', id, b, i) && DefinedAt(f', id, c, j)) {
      if PhiAt(f', id, b, i) && DefinedAt(f', id, c, j) {
        PhisSameIds(f, f', p, id, b, i);
        NoPhiDefinition(f, f', p, id, c, j);
      }
    }
    forall id, b, i, c, j | PhiAt(f', id, b, i) && PhiAt(f', id, c, j) ensures b == c && i == j {
      PhisSameIds(f, f', p, id, b, i);
      PhisSameIds(f, f', p, id, c, j);
    }
  }

  lemma OneDefinition(f: Func, f': Func, p: Plan, id: Id, b: Block, i: int, c: Block, j: int)
    requires Preheadered(f, f', p) && DefinedAt(f', id, b, i) && DefinedAt(f', id, c, j)
    ensures b == c && i == j
  {
    hide Preheadered, OperandsReady, OfLoop, IdsOf, Place;
    BodiesAfter(f, f', p);
    IndexNat(f', id, b, i);
    IndexNat(f', id, c, j);
    var x := DefinitionFrom(f, f', p, id, b, i);
    var y := DefinitionFrom(f, f', p, id, c, j);
  }

  lemma IndexNat(f: Func, id: Id, b: Block, i: int)
    requires DefinedAt(f, id, b, i)
    ensures i >= 0
  {
  }

  /** A value that an instruction defines is one that an instruction defined before. */
  lemma NoPhiDefinition(f: Func, f': Func, p: Plan, id: Id, c: Block, k: int)
    requires Preheadered(f, f', p) && DefinedAt(f', id, c, k)
    ensures exists d, j :: DefinedAt(f, id, d, j)
  {
    hide Preheadered, IdsOf, Place, MovedOk, InLoop, DefinedAt;
    BodiesAfter(f, f', p);
    IndexNat(f', id, c, k);
    var j := DefinitionFrom(f, f', p, id, c, k);
    if c == p.preheader {
      MovedDefined(f, p, id);
    }
  }

  // ----- uses -----

  /** A use that stays still has its value. */
  lemma AvailableKept(f: Func, f': Func, p: Plan, id: Id, b: Block, i: nat)
    requires Preheadered(f, f', p) && b in f.graph.blocks && i <= |f.body[b]| && Available(f, id, b, i)
    ensures Available(f', id, b, Place(IdsOf(p.moved), f.body[b], i))
  {
    hide Place, SsaForm, Hoisted, OnlyEntry, Dominates, DefinedAt, ValuesOk, PairsAtHeader, EnteredOnce, LoopGraph, MovedOk;
    NotNew(f, f', p, b);
    if id in IdsOf(p.moved) {
      MovedAvailable(f, p, id, b, i);
      NewDominates(f.graph, f'.graph, p.outside, p.header, p.preheader, b);
      var k :| 0 <= k < |p.moved| && p.moved[k].Op? && p.moved[k].id == id;
      DefinitionMoved(f, f', p, k);
    } else {
      var c, j :| DefinedAt(f, id, c, j) && ((c == b && j < i) || StrictlyDominates(f.graph, c, b));
      IndexNat(f, id, c, j);
      DefinedBlock(f, id, c, j);
      NotNew(f, f', p, c);
      DefinitionKept(f, f', p, id, c, j);
      DominatesKept(f.graph, f'.graph, p.outside, p.header, p.preheader, c, b);
    }
  }

  lemma DefinedBlock(f: Func, id: Id, c: Block, j: int)
    requires DefinedAt(f, id, c, j)
    ensures c in f.graph.blocks && c in f.body && 0 <= j < |f.body[c]|
  {
  }

  lemma NotNew(f: Func, f': Func, p: Plan, b: Block)
    requires Preheadered(f, f', p) && b in f.graph.blocks
    ensures b != p.preheader
  {
  }

  lemma PhiBeforeKept(f: Func, f': Func, p: Plan, id: Id, b: Block)
    requires Preheadered(f, f', p) && b in f.graph.blocks && PhiInScope(f, id, b)
    ensures PhiInScope(f', id, b)
  {
    hide Hoistable, SsaForm, Hoisted, OnlyEntry, Dominates;
    var c, k :| PhiAt(f, id, c, k) && Dominates(f.graph, c, b);
    PhisSameIds(f, f', p, id, c, k);
    DominatesKept(f.graph, f'.graph, p.outside, p.header, p.preheader, c, b);
  }

  lemma ReadyKept(f: Func, f': Func, p: Plan, v: Val, b: Block, i: nat)
    requires Preheadered(f, f', p) && b in f.graph.blocks && i <= |f.body[b]| && InScope(f, v, b, i)
    ensures InScope(f', v, b, Place(IdsOf(p.moved), f.body[b], i))
  {
    hide Preheadered, Place, Available, PhiInScope, IdsOf;
    if v.Res? {
      if Available(f, v.id, b, i) {
        AvailableKept(f, f', p, v.id, b, i);
      } else {
        PhiBeforeKept(f, f', p, v.id, b);
      }
    }
  }

  /** A value from outside the loop that is known in it is known where the loop is entered. */
  lemma OutsideDominates(g: Graph, o: Block, h: Block, d: Block, c: Block)
    requires LoopGraph(g) && OnlyEntry(g, o, h) && Edge(g, o, h) && InLoop(g, h, c) && !InLoop(g, h, d) && Dominates(g, d, c)
    ensures Dominates(g, d, o)
  {
    LoopDominated(g, h, c);
    DominatorsLinear(g, d, h, c);
    assert d != h;
    if Dominates(g, d, h) {
      DominatesPredecessor(g, d, o, h);
    } else {
      BetweenInLoop(g, h, d, c);
    }
  }

  /** A way to h passes nothing that h dominates. */
  lemma NotOnTheWay(g: Graph, h: Block, d: Block, p: seq<Block>)
    requires PathTo(g, p, h) && NoDuplicates(p) && Dominates(g, h, d)
    ensures d in p ==> d == h
  {
    if d in p {
      var i :| 0 <= i < |p| && p[i] == d;
      PathPrefix(g, p, h, i);
      var q :| 0 <= q < i + 1 && p[..i + 1][q] == h;
      assert p[q] == p[|p| - 1];
    }
  }

  /** Between the header and a block of the loop there are blocks of the loop only. */
  lemma BetweenInLoop(g: Graph, h: Block, d: Block, c: Block)
    requires LoopGraph(g) && InLoop(g, h, c) && Dominates(g, h, d) && Dominates(g, d, c) && d != h
    ensures InLoop(g, h, d)
  {
    LoopDominated(g, h, c);
    if c != h {
      var w := HeaderWalk(g, h, c);
      var q :| PathTo(g, q, h);
      var p := SimplePath(g, q, h);
      PathThenWalk(g, p, w, h, c);
      assert d in p + w[1..];
      NotOnTheWay(g, h, d, p);
    } else {
      LoopDominated(g, h, h);
      DominatesAntisymmetric(g, d, h);
    }
  }

  lemma OutsideKnown(f: Func, f': Func, p: Plan)
    requires Preheadered(f, f', p)
    ensures p.outside in f.graph.blocks && p.outside in f.body && p.outside != p.preheader
  {
    hide Hoistable, SsaForm, OnlyEntry, Hoisted;
    PlanParts(f, p);
  }

  /** What is known at the end of the outside block, and does not move, is known in the preheader. */
  lemma ReadyOutside(f: Func, f': Func, p: Plan, v: Val, i: nat)
    requires Preheadered(f, f', p) && (v.Res? ==> v.id !in IdsOf(p.moved)) && InScope(f, v, p.outside, |f.body[p.outside]|)
    ensures InScope(f', v, p.preheader, i)
  {
    hide Preheadered, Dominates, Place, IdsOf;
    OutsideKnown(f, f', p);
    if v.Res? {
      if Available(f, v.id, p.outside, |f.body[p.outside]|) {
        var c, j :| DefinedAt(f, v.id, c, j) && ((c == p.outside && j < |f.body[p.outside]|) || StrictlyDominates(f.graph, c, p.outside));
        DominatesReflexive(f.graph, p.outside);
        KnownInNew(f, f', p, v.id, c, j, i);
      } else {
        var c, k :| PhiAt(f, v.id, c, k) && Dominates(f.graph, c, p.outside);
        PhiKnownInNew(f, f', p, v.id, c, k);
      }
    }
  }

  lemma KnownInNew(f: Func, f': Func, p: Plan, id: Id, c: Block, j: int, i: nat)
    requires Preheadered(f, f', p) && id !in IdsOf(p.moved) && DefinedAt(f, id, c, j) && Dominates(f.graph, c, p.outside)
    ensures Available(f', id, p.preheader, i)
  {
    hide SsaForm, Hoisted, OnlyEntry, Dominates, Place, IdsOf, ValuesOk, PairsAtHeader, EnteredOnce, LoopGraph, MovedOk;
    DefinedBlock(f, id, c, j);
    DefinitionKept(f, f', p, id, c, j);
    NewDominated(f.graph, f'.graph, p.outside, p.header, p.preheader, c);
  }

  lemma PhiKnownInNew(f: Func, f': Func, p: Plan, id: Id, c: Block, k: int)
    requires Preheadered(f, f', p) && PhiAt(f, id, c, k) && Dominates(f.graph, c, p.outside)
    ensures PhiInScope(f', id, p.preheader)
  {
    hide Hoistable, SsaForm, Hoisted, OnlyEntry, Dominates;
    PhisSameIds(f, f', p, id, c, k);
    NewDominated(f.graph, f'.graph, p.outside, p.header, p.preheader, c);
  }

  // ----- definitions dominate uses again -----

  /** An operand of a moved operation is known in the preheader before it. */
  lemma ReadyMoved(f: Func, f': Func, p: Plan, k: nat, v: Val)
    requires Preheadered(f, f', p) && k < |p.moved| && v in Uses(p.moved[k])
    ensures InScope(f', v, p.preheader, k)
  {
    hide Hoistable, Hoisted, Place, Dominates, InLoop, WellFormed;
    PlanParts(f, p);
    BodiesAfter(f, f', p);
    if v.Res? {
      assert OperandsReady(f, p.header, p.moved[..k], p.moved[k]);
      if v.id in IdsOf(p.moved[..k]) {
        var m :| m in p.moved[..k] && m.Op? && m.id == v.id;
        var q :| 0 <= q < k && p.moved[..k][q] == m;
        DefinitionMoved(f, f', p, q);
        assert DefinedAt(f', v.id, p.preheader, q);
      } else {
        ReadyFromOutside(f, f', p, k, v);
      }
    }
  }

  lemma ReadyFromOutside(f: Func, f': Func, p: Plan, k: nat, v: Val)
    requires Preheadered(f, f', p) && k < |p.moved| && v in Uses(p.moved[k]) && v.Res? && !DefinedInLoop(f, p.header, v.id)
    ensures InScope(f', v, p.preheader, k)
  {
    hide Hoistable, Hoisted, Place, Dominates, InLoop, WellFormed, IdsOf, OperandsReady, OnlyEntry, ValuesOk, EnteredOnce, PairsAtHeader;
    PlanParts(f, p);
    assert OfLoop(f, p.header, p.moved[k]);
    var c, j :| InLoop(f.graph, p.header, c) && c in f.graph.blocks && c in f.body && 0 <= j < |f.body[c]| && f.body[c][j] == p.moved[k];
    LoopDominated(f.graph, p.header, c);
    assert BodyReady(f, c);
    NotMovedValue(f, p, v.id);
    EntryOld(f.graph, f'.graph, p.outside, p.header, p.preheader);
    if Available(f, v.id, c, j) {
      var d, i :| DefinedAt(f, v.id, d, i) && ((d == c && i < j) || StrictlyDominates(f.graph, d, c));
      OutsideDominates(f.graph, p.outside, p.header, d, c);
      KnownInNew(f, f', p, v.id, d, i, k);
    } else {
      var d, i :| PhiAt(f, v.id, d, i) && Dominates(f.graph, d, c);
      OutsideDominates(f.graph, p.outside, p.header, d, c);
      PhiKnownInNew(f, f', p, v.id, d, i);
    }
  }

  lemma NotMovedValue(f: Func, p: Plan, id: Id)
    requires MovedOk(f, p) && !DefinedInLoop(f, p.header, id)
    ensures id !in IdsOf(p.moved)
  {
    hide InLoop, OperandsReady, OfLoop;
    if id in IdsOf(p.moved) {
      MovedDefined(f, p, id);
    }
  }

  lemma BodyKept(f: Func, f': Func, p: Plan, b: Block)
    requires Preheadered(f, f', p) && b in f'.graph.blocks && Reachable(f'.graph, b)
    ensures b in f'.body && BodyReady(f', b)
  {
    hide Preheadered, Place, Without, IdsOf, InScope, MovedOk, Reachable;
    BodiesAfter(f, f', p);
    forall k, v | 0 <= k < |f'.body[b]| && v in Uses(f'.body[b][k]) ensures InScope(f', v, b, k) {
      if b == p.preheader {
        ReadyMoved(f, f', p, k, v);
      } else {
        assert f.body[b][..|f.body[b]|] == f.body[b];
        var i := PlaceOf(IdsOf(p.moved), f.body[b], |f.body[b]|, k);
        WasReady(f, f', p, b);
        ReadyKept(f, f', p, v, b, i);
      }
    }
  }

  lemma WasReady(f: Func, f': Func, p: Plan, b: Block)
    requires Preheadered(f, f', p) && b in f.graph.blocks && Reachable(f'.graph, b)
    ensures Reachable(f.graph, b) && b in f.body && b in f.term && BodyReady(f, b) && TermReady(f, b)
  {
    hide Hoistable, Hoisted, OnlyEntry, Reachable, BodyReady, TermReady, IdsApart;
    NotNew(f, f', p, b);
    ReachableKept(f.graph, f'.graph, p.outside, p.header, p.preheader, b);
    PlanParts(f, p);
  }

  lemma TermsAfter(f: Func, f': Func, p: Plan)
    requires Preheadered(f, f', p)
    ensures p.preheader in f'.term && f'.term[p.preheader] == Br(p.header) && p.outside in f.term && f.term[p.outside] == Br(p.header)
    ensures forall b | b in f.graph.blocks :: b in f.term && b in f'.term && f'.term[b] == if b == p.outside then Br(p.preheader) else f.term[b]
  {
    hide Hoistable, SsaForm, OnlyEntry, Without, IdsOf, PhisMoved;
    PlanParts(f, p);
  }

  lemma TermKept(f: Func, f': Func, p: Plan, b: Block)
    requires Preheadered(f, f', p) && b in f'.graph.blocks && Reachable(f'.graph, b)
    ensures b in f'.body && b in f'.term && TermReady(f', b)
  {
    hide Preheadered, Without, IdsOf, InScope, MovedOk, Reachable;
    BodiesAfter(f, f', p);
    TermsAfter(f, f', p);
    if b != p.preheader && b != p.outside {
      WasReady(f, f', p, b);
      PlaceAll(IdsOf(p.moved), f.body[b]);
      forall v | v in TermUses(f'.term[b]) ensures InScope(f', v, b, |f'.body[b]|) {
        ReadyKept(f, f', p, v, b, |f.body[b]|);
      }
    }
  }

  lemma EdgesAfter(f: Func, f': Func, p: Plan, u: Block, b: Block)
    requires Preheadered(f, f', p) && Edge(f'.graph, u, b)
    ensures p.outside in f.graph.blocks && p.header in f.graph.blocks && p.preheader !in f.graph.blocks
    ensures if u == p.outside then b == p.preheader
            else if u == p.preheader then b == p.header
            else Edge(f.graph, u, b) && u in f.graph.blocks && b in f.graph.blocks && (Reachable(f'.graph, u) <==> Reachable(f.graph, u))
  {
    hide Hoistable, SsaForm, Hoisted, OnlyEntry, Reachable, EdgeSplit, WellFormedFunc;
    NewEdges(f.graph, f'.graph, p.outside, p.header, p.preheader, u, b);
    if u != p.preheader {
      ReachableKept(f.graph, f'.graph, p.outside, p.header, p.preheader, u);
    }
  }

  lemma EdgeKept(f: Func, f': Func, p: Plan, u: Block, b: Block)
    requires Preheadered(f, f', p) && Edge(f'.graph, u, b) && Reachable(f'.graph, u)
    ensures u in f'.body && b in f'.phis && EdgeReady(f', u, b)
  {
    hide Preheadered, Without, IdsOf, MovedOk, Reachable, EdgeReady;
    BodiesAfter(f, f', p);
    PhisAfter(f, f', p);
    EdgesAfter(f, f', p, u, b);
    if u == p.outside {
      NoPairs(f', u, b);
    } else if u == p.preheader {
      EntryEdgeKept(f, f', p);
    } else {
      OldEdgeKept(f, f', p, u, b);
    }
  }

  lemma NoPairs(f: Func, u: Block, b: Block)
    requires u in f.body && b in f.phis && f.phis[b] == []
    ensures EdgeReady(f, u, b)
  {
  }

  lemma WasEdgeReady(f: Func, f': Func, p: Plan, u: Block, b: Block)
    requires Preheadered(f, f', p) && Edge(f.graph, u, b) && Reachable(f.graph, u)
    ensures u in f.body && b in f.phis && EdgeReady(f, u, b)
  {
    hide Hoistable, Hoisted, EdgeSplit, OnlyEntry, Reachable, SsaForm;
    PlanParts(f, p);
    SsaEdge(f, u, b);
  }

  lemma SsaEdge(f: Func, u: Block, b: Block)
    requires WellFormedFunc(f) && SsaForm(f) && Edge(f.graph, u, b) && Reachable(f.graph, u)
    ensures u in f.body && b in f.phis && EdgeReady(f, u, b)
  {
    hide Reachable, EdgeReady, BodyReady, TermReady, IdsApart;
  }

  /** The pairs of a block's phis: the same, or those of the header with the preheader's name. */
  lemma PairsAfter(f: Func, f': Func, p: Plan, b: Block, k: nat, v: Val, u: Block)
    requires Preheadered(f, f', p) && b in f.graph.blocks && b in f.phis && k < |f.phis[b]| && b in f'.phis && k < |f'.phis[b]|
    requires (v, u) in f'.phis[b][k].pairs
    ensures (b == p.header && u == p.preheader && (v, p.outside) in f.phis[b][k].pairs) || (v, u) in f.phis[b][k].pairs
  {
    hide SsaForm, OnlyEntry, Without, IdsOf, MovedOk, ValuesOk, LoopGraph, InLoop, EdgeSplit, WellFormed;
    PlanParts(f, p);
    assert PhisMoved(f, p, b, f.phis[b], f'.phis[b]);
    if b == p.header {
      var pairs := f.phis[b][k].pairs;
      var i :| 0 <= i < |pairs| && Relabelled(f, p, pairs)[i] == (v, u);
      assert (pairs[i].0, pairs[i].1) in f.phis[b][k].pairs;
    }
  }

  lemma OldEdgeKept(f: Func, f': Func, p: Plan, u: Block, b: Block)
    requires Preheadered(f, f', p) && Edge(f.graph, u, b) && u != p.outside && Reachable(f.graph, u) && u in f.graph.blocks && b in f.graph.blocks
    ensures u in f'.body && b in f'.phis && EdgeReady(f', u, b)
  {
    hide Preheadered, Without, IdsOf, InScope, MovedOk, Reachable;
    BodiesAfter(f, f', p);
    PhisAfter(f, f', p);
    WasEdgeReady(f, f', p, u, b);
    NotNew(f, f', p, u);
    PlaceAll(IdsOf(p.moved), f.body[u]);
    forall k, v | 0 <= k < |f'.phis[b]| && Incoming(f'.phis[b][k].pairs, u) == Some(v) ensures InScope(f', v, u, |f'.body[u]|) {
      IncomingSame(f, f', p, u, b, k);
      ReadyKept(f, f', p, v, u, |f.body[u]|);
    }
  }

  /** An edge that stays brings the same operand. */
  lemma IncomingSame(f: Func, f': Func, p: Plan, u: Block, b: Block, k: nat)
    requires Preheadered(f, f', p) && Edge(f.graph, u, b) && u != p.outside && b in f.graph.blocks && b in f.phis && k < |f.phis[b]| && b in f'.phis && k < |f'.phis[b]|
    ensures Incoming(f'.phis[b][k].pairs, u) == Incoming(f.phis[b][k].pairs, u)
  {
    hide SsaForm, OnlyEntry, Without, IdsOf, MovedOk, ValuesOk, InLoop, EdgeSplit, WellFormed, Relabelled;
    PlanParts(f, p);
    assert PhisMoved(f, p, b, f.phis[b], f'.phis[b]);
    if b == p.header {
      OutsidePreheader(f, p);
      HeaderPairs(f, p, k);
      RelabelledIncoming(f, p, f.phis[b][k].pairs, u);
    }
  }

  /** The edge from the preheader brings what the edge from outside brought. */
  lemma IncomingEntry(f: Func, f': Func, p: Plan, k: nat)
    requires Preheadered(f, f', p) && p.header in f.graph.blocks && p.header in f.phis && k < |f.phis[p.header]| && p.header in f'.phis && k < |f'.phis[p.header]|
    ensures Incoming(f'.phis[p.header][k].pairs, p.preheader) == Incoming(f.phis[p.header][k].pairs, p.outside)
  {
    hide SsaForm, OnlyEntry, Without, IdsOf, MovedOk, ValuesOk, InLoop, EdgeSplit, WellFormed, Relabelled;
    PlanParts(f, p);
    assert PhisMoved(f, p, p.header, f.phis[p.header], f'.phis[p.header]);
    OutsidePreheader(f, p);
    HeaderPairs(f, p, k);
    RelabelledIncoming(f, p, f.phis[p.header][k].pairs, p.header);
  }

  lemma EntryEdgeKept(f: Func, f': Func, p: Plan)
    requires Preheadered(f, f', p) && Reachable(f'.graph, p.preheader)
    ensures p.preheader in f'.body && p.header in f'.phis && EdgeReady(f', p.preheader, p.header)
  {
    hide Hoistable, SsaForm, Hoisted, Without, IdsOf, MovedOk, Reachable, OnlyEntry, Available, PhiInScope;
    EntryOld(f.graph, f'.graph, p.outside, p.header, p.preheader);
    PlanParts(f, p);
    BodiesAfter(f, f', p);
    PhisAfter(f, f', p);
    NewDominated(f.graph, f'.graph, p.outside, p.header, p.preheader, p.outside);
    WasEdgeReady(f, f', p, p.outside, p.header);
    forall k, v | 0 <= k < |f'.phis[p.header]| && Incoming(f'.phis[p.header][k].pairs, p.preheader) == Some(v)
      ensures InScope(f', v, p.preheader, |f'.body[p.preheader]|)
    {
      IncomingEntry(f, f', p, k);
      EntryValue(f, f', p, k, v);
      ReadyOutside(f, f', p, v, |f'.body[p.preheader]|);
    }
  }

  lemma EntryValue(f: Func, f': Func, p: Plan, k: nat, v: Val)
    requires Preheadered(f, f', p) && Reachable(f.graph, p.outside) && p.outside in f.body && p.header in f.phis && k < |f.phis[p.header]|
    requires Incoming(f.phis[p.header][k].pairs, p.outside) == Some(v) && EdgeReady(f, p.outside, p.header)
    ensures InScope(f, v, p.outside, |f.body[p.outside]|) && (v.Res? ==> v.id !in IdsOf(p.moved))
  {
    hide Hoisted, EdgeSplit, OnlyEntry, Reachable, Available, IdsOf, InLoop, PairsAtHeader;
    if v.Res? && v.id in IdsOf(p.moved) {
      EdgeIn(f, p);
      NotAvailableBefore(f, p, v.id);
    }
  }

  /** Definitions dominate their uses again. */
  lemma SsaKept(f: Func, f': Func, p: Plan)
    requires Preheadered(f, f', p)
    ensures SsaForm(f')
  {
    hide Hoistable, Hoisted, EdgeSplit, OnlyEntry, Reachable, BodyReady, TermReady, EdgeReady, IdsApart;
    IdsStayApart(f, f', p);
    forall b | b in f'.graph.blocks && Reachable(f'.graph, b) ensures BodyReady(f', b) && TermReady(f', b) {
      BodyKept(f, f', p, b);
      TermKept(f, f', p, b);
    }
    forall u, b | Edge(f'.graph, u, b) && Reachable(f'.graph, u) ensures EdgeReady(f', u, b) {
      EdgeKept(f, f', p, u, b);
    }
  }
}
