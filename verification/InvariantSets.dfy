/** Which operations of a loop are invariant, and that moving them out in the order in which
    they were found is right. */
module InvariantSets {
  import opened Common
  import opened Cfg
  import opened NaturalLoops
  import opened LoopNest
  import opened Ir
  import opened Ssa
  import opened Preheaders
  import opened Hoisting
  import opened HoistedForm
  import opened InvariantLoops
  import opened LoopForm
  import opened LoopRewrite
  import opened QuietLoops

  /** The values that the loop defines anew each time, when inv has been taken out. */
  ghost function Variables(instrs: set<Instr>, phiIds: set<Id>, inv: seq<Instr>): set<Id> {
    phiIds + set i | i in instrs && i !in inv && Defines(i).Some? :: Defines(i).value
  }

  ghost predicate Invariant(instrs: set<Instr>, phiIds: set<Id>, inv: seq<Instr>, instr: Instr) {
    forall v | v in Uses(instr) && v.Res? :: v.id !in Variables(instrs, phiIds, inv)
  }

  /** Each one uses nothing of the loop but what comes before it. */
  ghost predicate InvariantsSound(impure: bool, instrs: set<Instr>, phiIds: set<Id>, inv: seq<Instr>) {
    && NoDuplicates(inv)
    && forall k | 0 <= k < |inv| :: inv[k] in instrs && Movable(impure, inv[k]) && Invariant(instrs, phiIds, inv[..k], inv[k])
  }

  /** All others use something else of the loop. */
  ghost predicate InvariantsComplete(impure: bool, instrs: set<Instr>, phiIds: set<Id>, inv: seq<Instr>) {
    forall i | i in instrs && Movable(impure, i) && i !in inv :: !Invariant(instrs, phiIds, inv, i)
  }

  lemma MoreInvariant(instrs: set<Instr>, phiIds: set<Id>, inv: seq<Instr>, inv': seq<Instr>, instr: Instr)
    requires Invariant(instrs, phiIds, inv, instr) && forall i | i in inv :: i in inv'
    ensures Invariant(instrs, phiIds, inv', instr)
  {
  }

  /** The set has all that is invariant relative to it. */
  ghost predicate InvariantsClosed(impure: bool, instrs: set<Instr>, phiIds: set<Id>, s: set<Instr>) {
    forall i | i in instrs && Movable(impure, i) && OperandsIn(instrs, phiIds, s, i) :: i in s
  }

  ghost predicate OperandsIn(instrs: set<Instr>, phiIds: set<Id>, s: set<Instr>, instr: Instr) {
    forall v | v in Uses(instr) && v.Res? :: v.id !in phiIds && forall d | d in instrs && Defines(d) == Some(v.id) :: d in s
  }

  /** In whatever order the instructions are looked at, the same ones are found: the least closed set. */
  lemma InvariantsLeast(impure: bool, instrs: set<Instr>, phiIds: set<Id>, inv: seq<Instr>)
    requires InvariantsSound(impure, instrs, phiIds, inv) && InvariantsComplete(impure, instrs, phiIds, inv)
    ensures InvariantsClosed(impure, instrs, phiIds, Elements(inv))
    ensures forall s, i | InvariantsClosed(impure, instrs, phiIds, s) && i in inv :: i in s
  {
    forall i | i in instrs && Movable(impure, i) && OperandsIn(instrs, phiIds, Elements(inv), i) ensures i in inv {
      assert Invariant(instrs, phiIds, inv, i);
    }
    forall s, i | InvariantsClosed(impure, instrs, phiIds, s) && i in inv ensures i in s {
      var k :| 0 <= k < |inv| && inv[k] == i;
      InvariantsInClosed(impure, instrs, phiIds, inv, s, k);
    }
  }

  lemma {:induction false} InvariantsInClosed(impure: bool, instrs: set<Instr>, phiIds: set<Id>, inv: seq<Instr>, s: set<Instr>, k: nat)
    requires InvariantsSound(impure, instrs, phiIds, inv) && InvariantsClosed(impure, instrs, phiIds, s) && k < |inv|
    ensures inv[k] in s
    decreases k
  {
    forall v, d | v in Uses(inv[k]) && v.Res? && d in instrs && Defines(d) == Some(v.id) ensures d in s {
      assert Invariant(instrs, phiIds, inv[..k], inv[k]);
      assert d in inv[..k];
      var j :| 0 <= j < k && inv[j] == d;
      InvariantsInClosed(impure, instrs, phiIds, inv, s, j);
    }
    assert Invariant(instrs, phiIds, inv[..k], inv[k]);
  }

  // ----- they make a plan -----

  ghost predicate PhiOfLoop(f: Func, h: Block, id: Id) {
    exists b, i :: InLoop(f.graph, h, b) && PhiAt(f, id, b, i)
  }

  /** The instructions of the loop. */
  ghost predicate CollectedOk(f: Func, h: Block, instrs: set<Instr>, phiIds: set<Id>) {
    && (forall i :: i in instrs <==> OfLoop(f, h, i))
    && forall id :: id in phiIds <==> PhiOfLoop(f, h, id)
  }

  /** What the loop defines anew is defined in the loop, and not by an invariant operation. */
  lemma VariableDefined(f: Func, h: Block, instrs: set<Instr>, phiIds: set<Id>, inv: seq<Instr>, id: Id)
    requires CollectedOk(f, h, instrs, phiIds) && IdsApart(f) && LoopGraph(f.graph) && WellFormedFunc(f)
    requires forall i | i in inv :: i in instrs && i.Op?
    ensures id in Variables(instrs, phiIds, inv) <==> DefinedInLoop(f, h, id) && id !in IdsOf(inv)
  {
    hide InLoop, LoopGraph, WellFormed;
    if id in Variables(instrs, phiIds, inv) {
      VariableFrom(f, h, instrs, phiIds, inv, id);
    }
    if DefinedInLoop(f, h, id) && id !in IdsOf(inv) {
      var b, i :| InLoop(f.graph, h, b) && (DefinedAt(f, id, b, i) || PhiAt(f, id, b, i));
      if DefinedAt(f, id, b, i) {
        assert OfLoop(f, h, f.body[b][i]);
        assert f.body[b][i] in inv ==> f.body[b][i].Op? && f.body[b][i].id in IdsOf(inv);
      } else {
        assert PhiOfLoop(f, h, id);
      }
    }
  }

  lemma VariableFrom(f: Func, h: Block, instrs: set<Instr>, phiIds: set<Id>, inv: seq<Instr>, id: Id)
    requires CollectedOk(f, h, instrs, phiIds) && IdsApart(f) && id in Variables(instrs, phiIds, inv)
    requires forall i | i in inv :: i in instrs && i.Op?
    ensures DefinedInLoop(f, h, id) && id !in IdsOf(inv)
  {
    hide InLoop;
    if id in phiIds {
      var b, k :| InLoop(f.graph, h, b) && PhiAt(f, id, b, k);
      forall i | i in inv ensures i.id != id {
        var c, j := PlaceIn(f, h, i);
        assert DefinedAt(f, i.id, c, j);
      }
    } else {
      var d :| d in instrs && d !in inv && Defines(d) == Some(id);
      var b, k := PlaceIn(f, h, d);
      assert DefinedAt(f, id, b, k);
      forall i | i in inv ensures i.id != id {
        var c, j := PlaceIn(f, h, i);
        assert DefinedAt(f, i.id, c, j);
      }
    }
  }

  lemma PlaceIn(f: Func, h: Block, instr: Instr) returns (b: Block, i: int)
    requires OfLoop(f, h, instr)
    ensures InLoop(f.graph, h, b) && b in f.graph.blocks && b in f.body && 0 <= i < |f.body[b]| && f.body[b][i] == instr
  {
    hide InLoop;
    b, i :| InLoop(f.graph, h, b) && b in f.graph.blocks && b in f.body && 0 <= i < |f.body[b]| && f.body[b][i] == instr;
  }

  lemma InvariantsOps(f: Func, h: Block, impure: bool, instrs: set<Instr>, phiIds: set<Id>, inv: seq<Instr>)
    requires InvariantsSound(impure, instrs, phiIds, inv) && CollectedOk(f, h, instrs, phiIds) && RegisterLoops(f)
    ensures AllMovable(impure, inv) && forall i | i in inv :: i in instrs && i.Op? && OfLoop(f, h, i)
  {
    hide InLoop, Invariant;
    forall i | i in inv ensures i in instrs && i.Op? && OfLoop(f, h, i) {
      var k :| 0 <= k < |inv| && inv[k] == i;
      var b, j := PlaceIn(f, h, i);
    }
  }

  lemma InvariantsMoved(f: Func, p: Plan, impure: bool, instrs: set<Instr>, phiIds: set<Id>)
    requires Fit(f) && InvariantsSound(impure, instrs, phiIds, p.moved) && CollectedOk(f, p.header, instrs, phiIds)
    ensures MovedOk(f, p) && AllMovable(impure, p.moved)
  {
    hide InLoop, BodyReady, TermReady, EdgeReady, WellFormed, LoopGraph, RegisterLoops, CleanLoops, Variables, CollectedOk, Movable;
    InvariantsOps(f, p.header, impure, instrs, phiIds, p.moved);
    forall k | 0 <= k < |p.moved| ensures OperandsReady(f, p.header, p.moved[..k], p.moved[k]) {
      assert Invariant(instrs, phiIds, p.moved[..k], p.moved[k]);
      forall v | v in Uses(p.moved[k]) && v.Res? ensures v.id in IdsOf(p.moved[..k]) || !DefinedInLoop(f, p.header, v.id) {
        VariableDefined(f, p.header, instrs, phiIds, p.moved[..k], v.id);
      }
    }
    forall j, k | 0 <= j < k < |p.moved| ensures p.moved[j].id != p.moved[k].id {
      var b, x := PlaceIn(f, p.header, p.moved[j]);
      var c, y := PlaceIn(f, p.header, p.moved[k]);
      assert DefinedAt(f, p.moved[j].id, b, x) && DefinedAt(f, p.moved[k].id, c, y);
    }
  }

  /** What is left uses what is left. */
  lemma LeftUses(f: Func, h: Block, impure: bool, instrs: set<Instr>, phiIds: set<Id>, inv: seq<Instr>, b: Block, i: nat)
    requires Fit(f) && InvariantsSound(impure, instrs, phiIds, inv) && InvariantsComplete(impure, instrs, phiIds, inv) && CollectedOk(f, h, instrs, phiIds)
    requires InLoop(f.graph, h, b) && b in f.graph.blocks && b in f.body && i < |f.body[b]| && Movable(impure, f.body[b][i]) && !Leaves(IdsOf(inv), f.body[b][i])
    ensures exists v :: v in Uses(f.body[b][i]) && v.Res? && v.id !in IdsOf(inv) && DefinedInLoop(f, h, v.id)
  {
    hide InLoop, BodyReady, TermReady, EdgeReady, WellFormed, LoopGraph, CleanLoops, Variables;
    InvariantsOps(f, h, impure, instrs, phiIds, inv);
    var instr := f.body[b][i];
    assert OfLoop(f, h, instr);
    assert instr in inv ==> Leaves(IdsOf(inv), instr);
    var v :| v in Uses(instr) && v.Res? && v.id in Variables(instrs, phiIds, inv);
    VariableDefined(f, h, instrs, phiIds, inv, v.id);
  }

  // ----- the state between two loops -----

  ghost predicate SameNest(g0: Graph, g: Graph, n: Nest) {
    forall q, c | q in n.rec && c in n.rec :: InLoop(g, q, c) <==> InLoop(g0, q, c)
  }

  ghost predicate AllInside(g: Graph, n: Nest, h: Block, done: set<Block>) {
    forall c | c in Inside(g, n, h) :: c in done
  }

  ghost predicate InnerDone(g: Graph, n: Nest, h: Block, done: set<Block>) {
    forall c | c in Inside(g, n, h) && c != h :: c in done
  }

  /** The function that the loops were found in was g0; the loops that are done are settled. */
  ghost predicate Shaped(f: Func, impure: bool, next: Block, g0: Graph, n: Nest, listed: map<Block, seq<Block>>, done: set<Block>) {
    && Fit(f) && Nested(f.graph, n) && LoopGraph(g0) && Nested(g0, n) && SameNest(g0, f.graph, n)
    && ListsOk(f.graph, n.rec.Keys, listed) && (forall b | b in f.graph.blocks :: b < next)
    && (forall c | c in done :: c in n.rec && AllInside(g0, n, c, done) && Settled(f, impure, c))
  }

  lemma ShapedParts(f: Func, impure: bool, next: Block, g0: Graph, n: Nest, listed: map<Block, seq<Block>>, done: set<Block>)
    requires Shaped(f, impure, next, g0, n, listed, done)
    ensures Fit(f) && WellFormedFunc(f) && LoopGraph(f.graph) && SsaForm(f) && Nested(f.graph, n) && LoopGraph(g0) && Nested(g0, n) && SameNest(g0, f.graph, n)
    ensures ListsOk(f.graph, n.rec.Keys, listed) && next !in f.graph.blocks
    ensures forall c | c in done :: c in n.rec && AllInside(g0, n, c, done) && Settled(f, impure, c)
  {
    hide Nested, LoopGraph, SsaForm, ListsOk, Settled, WellFormed, RegisterLoops, CleanLoops, SameNest, Inside;
  }

  lemma EntryOf(f: Func, n: Nest, h: Block) returns (o: Block)
    requires Fit(f) && Nested(f.graph, n) && h in n.rec
    ensures IsHeader(f.graph, h) && CleanEntry(f, h, o)
  {
    hide CleanEntry, InLoop, SsaForm, RegisterLoops, LoopGraph, IsHeader, WellFormedFunc;
    o :| CleanEntry(f, h, o);
  }

  /** The plan for a loop when those inside are done. */
  lemma PlanReady(f: Func, p: Plan, impure: bool, next: Block, g0: Graph, n: Nest, listed: map<Block, seq<Block>>, done: set<Block>, instrs: set<Instr>, phiIds: set<Id>)
    requires Shaped(f, impure, next, g0, n, listed, done) && p.header in n.rec && CleanEntry(f, p.header, p.outside) && p.preheader == next
    requires InnerDone(g0, n, p.header, done)
    requires InvariantsSound(impure, instrs, phiIds, p.moved) && CollectedOk(f, p.header, instrs, phiIds)
    ensures Hoistable(f, p) && AllMovable(impure, p.moved) && SsaForm(f) && EnteredOnce(f, p) && p.header in f.graph.blocks && p.header in listed && ListedEnough(f, p, listed[p.header])
  {
    hide InLoop, Nested, LoopGraph, SsaForm, ListsOk, Settled, WellFormed, RegisterLoops, CleanLoops, InvariantsSound, CollectedOk, CleanEntry, MovedOk, IsHeader, PairsAtHeader,
      EnteredOnce, Hoistable, PairsFrom, Leaves, AllMovable;
    ShapedParts(f, impure, next, g0, n, listed, done);
    NestedHeader(f.graph, n, p.header);
    EntryPlan(f, p);
    InvariantsMoved(f, p, impure, instrs, phiIds);
    PlanHoistable(f, p);
    forall c | c in n.rec && c != p.header && InLoop(f.graph, p.header, c) ensures Settled(f, impure, c) {
      assert c in Inside(g0, n, p.header);
    }
    ListedMoved(f, p, impure, n.rec.Keys, listed);
    EntryLatches(f, p.header, p.outside);
    ListedLabels(f, p, n.rec.Keys, listed);
    ListsParts(f.graph, n.rec.Keys, listed, p.header);
  }

  /** Exactly the invariant operations of the loop have been moved in front of it. */
  ghost predicate Rewritten(f: Func, f': Func, impure: bool, h: Block) {
    exists p: Plan, instrs: set<Instr>, phiIds: set<Id> | p.header == h && CollectedOk(f, h, instrs, phiIds) ::
      && InvariantsSound(impure, instrs, phiIds, p.moved) && InvariantsComplete(impure, instrs, phiIds, p.moved)
      && if p.moved == [] then f' == f else Hoistable(f, p) && Hoisted(f, f', p)
  }

  lemma NothingMoved(f: Func, impure: bool, h: Block, instrs: set<Instr>, phiIds: set<Id>)
    requires CollectedOk(f, h, instrs, phiIds) && InvariantsSound(impure, instrs, phiIds, []) && InvariantsComplete(impure, instrs, phiIds, [])
    ensures Rewritten(f, f, impure, h)
  {
    hide CollectedOk, InvariantsSound, InvariantsComplete;
    assert Plan(h, h, h, []).header == h;
  }

  lemma LoopRewritten(f: Func, f': Func, p: Plan, impure: bool, instrs: set<Instr>, phiIds: set<Id>)
    requires p.moved != [] && Hoistable(f, p) && Hoisted(f, f', p) && CollectedOk(f, p.header, instrs, phiIds)
    requires InvariantsSound(impure, instrs, phiIds, p.moved) && InvariantsComplete(impure, instrs, phiIds, p.moved)
    ensures Rewritten(f, f', impure, p.header)
  {
    hide CollectedOk, InvariantsSound, InvariantsComplete, Hoistable, Hoisted;
  }

  /** The loop has been rewritten. */
  lemma ShapedMoved(f: Func, f': Func, p: Plan, impure: bool, next: Block, g0: Graph, n: Nest, listed: map<Block, seq<Block>>, done: set<Block>, instrs: set<Instr>, phiIds: set<Id>)
    requires Shaped(f, impure, next, g0, n, listed, done) && p.header in n.rec && p.header !in done && CleanEntry(f, p.header, p.outside) && p.preheader == next
    requires InnerDone(g0, n, p.header, done)
    requires InvariantsSound(impure, instrs, phiIds, p.moved) && InvariantsComplete(impure, instrs, phiIds, p.moved) && CollectedOk(f, p.header, instrs, phiIds)
    requires p.header in listed && Inserted(f, f', p, listed[p.header])
    ensures Shaped(f', impure, next + 1, g0, n, WithNew(listed, n.rec[p.header].parent, next), done + {p.header}) && KeepsMeaning(impure, f, f')
    ensures p.moved != [] ==> Rewritten(f, f', impure, p.header)
  {
    hide Rewritten, InLoop, Nested, LoopGraph, SsaForm, ListsOk, Settled, RegisterLoops, CleanLoops, InvariantsSound, InvariantsComplete, CollectedOk, CleanEntry, MovedOk, IsHeader,
      EnteredOnce, Hoistable, Leaves, Shaped, Inserted, ListedEnough, WellFormedFunc, Hoisted, ListsChanged, Fit, EdgeSplit, OnlyEntry, Inside, SameNest, KeepsMeaning, AllMovable;
    ShapedParts(f, impure, next, g0, n, listed, done);
    PlanReady(f, p, impure, next, g0, n, listed, done, instrs, phiIds);
    InsertedHoisted(f, f', p, listed[p.header]);
    InsertedFunc(f, f', p, listed[p.header]);
    LoopOnlyEntry(f, p);
    FitKept(f, f', p);
    NestedKept(f, f', p, n);
    FitLoopGraph(f');
    MeaningMoved(f, f', p, impure);
    if p.moved != [] {
      LoopRewritten(f, f', p, impure, instrs, phiIds);
    }
    ListsKept(f, f', p, n, listed);
    SameNestKept(f, f', p, g0, n);
    DoneSettled(f, f', p, impure, g0, n, done);
    LastSettled(f, f', p, impure, instrs, phiIds);
    BlocksBelow(f, f', p, impure, next, g0, n, listed, done);
    ShapedIntro(f', impure, next, g0, n, WithNew(listed, n.rec[p.header].parent, next), done, p.header);
  }

  lemma FitLoopGraph(f: Func)
    requires Fit(f)
    ensures LoopGraph(f.graph) && WellFormedFunc(f)
  {
  }

  lemma SameNestKept(f: Func, f': Func, p: Plan, g0: Graph, n: Nest)
    requires Preheadered(f, f', p) && Nested(f.graph, n) && SameNest(g0, f.graph, n)
    ensures SameNest(g0, f'.graph, n)
  {
    hide Preheadered, InLoop, OnlyEntry, EnteredOnce, LoopGraph;
    SplitParts(f, f', p);
    forall q, c | q in n.rec && c in n.rec ensures InLoop(f'.graph, q, c) <==> InLoop(g0, q, c) {
      HeaderBlock(f.graph, q);
      HeaderBlock(f.graph, c);
      LoopKept(f.graph, f'.graph, p.outside, p.header, p.preheader, q, c);
    }
  }

  lemma DoneSettled(f: Func, f': Func, p: Plan, impure: bool, g0: Graph, n: Nest, done: set<Block>)
    requires Preheadered(f, f', p) && AllMovable(impure, p.moved) && LoopGraph(f'.graph) && Nested(f.graph, n) && SameNest(g0, f.graph, n) && p.header in n.rec && p.header !in done
    requires forall c | c in done :: c in n.rec && AllInside(g0, n, c, done) && Settled(f, impure, c)
    ensures forall c | c in done :: Settled(f', impure, c)
  {
    hide Preheadered, InLoop, OnlyEntry, EnteredOnce, LoopGraph, Settled, AllMovable;
    SplitParts(f, f', p);
    forall c | c in done ensures Settled(f', impure, c) {
      HeaderBlock(f.graph, c);
      assert p.header !in Inside(g0, n, c);
      SettledKept(f, f', p, impure, c);
    }
  }

  lemma LastSettled(f: Func, f': Func, p: Plan, impure: bool, instrs: set<Instr>, phiIds: set<Id>)
    requires Fit(f) && Preheadered(f, f', p) && LoopGraph(f'.graph)
    requires InvariantsSound(impure, instrs, phiIds, p.moved) && InvariantsComplete(impure, instrs, phiIds, p.moved) && CollectedOk(f, p.header, instrs, phiIds)
    ensures Settled(f', impure, p.header)
  {
    hide Preheadered, InLoop, Fit, LoopGraph, InvariantsSound, InvariantsComplete, CollectedOk, IdsOf, Leaves, Movable, DefinedInLoop, Settled;
    forall b, i | InLoop(f.graph, p.header, b) && b in f.graph.blocks && b in f.body && 0 <= i < |f.body[b]| && Movable(impure, f.body[b][i]) && !Leaves(IdsOf(p.moved), f.body[b][i])
      ensures exists v :: v in Uses(f.body[b][i]) && v.Res? && v.id !in IdsOf(p.moved) && DefinedInLoop(f, p.header, v.id)
    {
      LeftUses(f, p.header, impure, instrs, phiIds, p.moved, b, i);
    }
    OwnSettled(f, f', p, impure);
  }

  lemma BlocksBelow(f: Func, f': Func, p: Plan, impure: bool, next: Block, g0: Graph, n: Nest, listed: map<Block, seq<Block>>, done: set<Block>)
    requires Shaped(f, impure, next, g0, n, listed, done) && Preheadered(f, f', p) && p.preheader == next
    ensures forall b | b in f'.graph.blocks :: b < next + 1
  {
    hide Preheadered, Fit, Nested, ListsOk, SameNest, EnteredOnce, LoopGraph;
    SplitParts(f, f', p);
  }

  lemma ShapedIntro(f: Func, impure: bool, next: Block, g0: Graph, n: Nest, listed: map<Block, seq<Block>>, done: set<Block>, h: Block)
    requires Fit(f) && Nested(f.graph, n) && LoopGraph(g0) && Nested(g0, n) && SameNest(g0, f.graph, n)
    requires ListsOk(f.graph, n.rec.Keys, listed) && (forall b | b in f.graph.blocks :: b < next + 1)
    requires forall c | c in done :: c in n.rec && AllInside(g0, n, c, done) && Settled(f, impure, c)
    requires h in n.rec && InnerDone(g0, n, h, done) && Settled(f, impure, h)
    ensures Shaped(f, impure, next + 1, g0, n, listed, done + {h})
  {
    hide Fit, Nested, ListsOk, SameNest, LoopGraph, Settled, Inside;
  }

  /** Nothing to move: the loop is settled as it is. */
  lemma ShapedSame(f: Func, h: Block, impure: bool, next: Block, g0: Graph, n: Nest, listed: map<Block, seq<Block>>, done: set<Block>, instrs: set<Instr>, phiIds: set<Id>)
    requires Shaped(f, impure, next, g0, n, listed, done) && h in n.rec && InnerDone(g0, n, h, done)
    requires InvariantsComplete(impure, instrs, phiIds, []) && CollectedOk(f, h, instrs, phiIds)
    ensures Shaped(f, impure, next + 1, g0, n, listed, done + {h})
  {
    hide InLoop, Fit, Nested, ListsOk, SameNest, LoopGraph, Inside, CollectedOk, InvariantsComplete, Movable, DefinedInLoop, Leaves;
    ShapedParts(f, impure, next, g0, n, listed, done);
    forall b, i | InLoop(f.graph, h, b) && b in f.graph.blocks && b in f.body && 0 <= i < |f.body[b]| && Movable(impure, f.body[b][i]) ensures UsesLoop(f, h, f.body[b][i]) {
      NothingLeaves(f.body[b][i]);
      SoundNone(impure, instrs, phiIds);
      LeftUses(f, h, impure, instrs, phiIds, [], b, i);
    }
    ShapedIntro(f, impure, next, g0, n, listed, done, h);
  }

  lemma NothingLeaves(instr: Instr)
    ensures !Leaves(IdsOf([]), instr)
  {
  }

  lemma SoundNone(impure: bool, instrs: set<Instr>, phiIds: set<Id>)
    ensures InvariantsSound(impure, instrs, phiIds, [])
  {
  }
}
