/** A loop over a global variable: code motion takes the loads of the variable out of the loop although the loop stores to it. */
module GlobalLoop {
  import opened Common
  import opened Cfg
  import opened NaturalLoops
  import opened Ir
  import opened Ssa
  import opened Hoisting
  import opened InvariantLoops
  import opened LoopForm
  import opened CleanedForm
  import opened InvariantSets
  import Marking

  const G := Const(4096)
  const LOAD := Op(10, LoadPtr, [G])
  const TEST := Op(11, Icmp(Lt), [Res(10), Const(1)])
  const LOAD_AGAIN := Op(12, LoadPtr, [G])
  const PLUS := Op(13, Add, [Res(12), Const(1)])
  const STORE := Op(14, StorePtr, [Res(13), G])
  const RESULT := Op(15, LoadPtr, [G])

  /** int g; int f() { while (g < 1) g = g + 1; return g; } */
  const GLOBAL_LOOP: Func := Func(
    Graph(0, [0, 1, 2, 3], map[0 := [], 1 := [0, 2], 2 := [1], 3 := [1]], map[0 := [1], 1 := [2, 3], 2 := [1], 3 := []]),
    map[0 := [], 1 := [], 2 := [], 3 := []],
    map[0 := [], 1 := [LOAD, TEST], 2 := [LOAD_AGAIN, PLUS, STORE], 3 := [RESULT]],
    map[0 := Br(1), 1 := CondBr(Res(11), 2, 3), 2 := Br(1), 3 := Ret(Some(Res(15)))])

  // ----- the function is one that the pass takes -----

  ghost predicate FourBlocks(g: Graph) {
    && g.entry == 0 && g.blocks == [0, 1, 2, 3] && (forall b | 0 <= b < 4 :: b in g.pre && b in g.succ)
    && g.succ[0] == [1] && g.succ[1] == [2, 3] && g.succ[2] == [1] && g.succ[3] == []
    && g.pre[0] == [] && g.pre[1] == [0, 2] && g.pre[2] == [1] && g.pre[3] == [1]
  }

  ghost predicate LoopText(f: Func) {
    && (forall b | 0 <= b < 4 :: b in f.phis && f.phis[b] == [] && b in f.body && b in f.term)
    && f.body[0] == [] && f.body[1] == [LOAD, TEST] && f.body[2] == [LOAD_AGAIN, PLUS, STORE] && f.body[3] == [RESULT]
    && f.term[0] == Br(1) && f.term[1] == CondBr(Res(11), 2, 3) && f.term[2] == Br(1) && f.term[3] == Ret(Some(Res(15)))
  }

  lemma GraphHas()
    ensures FourBlocks(GLOBAL_LOOP.graph)
  {
  }

  lemma TextHas()
    ensures LoopText(GLOBAL_LOOP)
  {
  }

  lemma LoopEdges(g: Graph)
    requires FourBlocks(g)
    ensures WellFormed(g)
    ensures forall u, v :: Edge(g, u, v) <==> (u == 0 && v == 1) || (u == 1 && (v == 2 || v == 3)) || (u == 2 && v == 1)
  {
  }

  lemma LoopReached(g: Graph)
    requires FourBlocks(g)
    ensures forall b | b in g.blocks :: Reachable(g, b)
    ensures LoopGraph(g)
  {
    LoopEdges(g);
    assert PathTo(g, [0], 0) && PathTo(g, [0, 1], 1) && PathTo(g, [0, 1, 2], 2) && PathTo(g, [0, 1, 3], 3);
  }

  lemma LoopHeaders(g: Graph)
    requires FourBlocks(g)
    ensures forall h, l :: IsLatch(g, h, l) <==> h == 1 && l == 2
    ensures forall h :: IsHeader(g, h) <==> h == 1
  {
    LoopEdges(g);
    LoopReached(g);
    forall p | PathTo(g, p, 2) ensures 1 in p {
      assert |p| > 1 && Edge(g, p[|p| - 2], p[|p| - 2 + 1]);
    }
    assert Dominates(g, 1, 2);
    assert PathTo(g, [0], 0) && PathTo(g, [0, 1], 1);
    assert !Dominates(g, 1, 0) && !Dominates(g, 2, 1) && !Dominates(g, 3, 1);
    assert IsLatch(g, 1, 2);
  }

  lemma LoopBlocks(g: Graph)
    requires FourBlocks(g)
    ensures forall h, b :: InLoop(g, h, b) <==> h == 1 && (b == 1 || b == 2)
  {
    hide IsLatch, IsHeader;
    LoopEdges(g);
    LoopHeaders(g);
    assert LatchWalk(g, 1, 2, [2], 2);
    forall b, p, l | LatchWalk(g, 1, b, p, l) ensures b == 2 {
      SecondBlock(g, p, b, l);
    }
  }

  lemma SecondBlock(g: Graph, p: seq<Block>, b: Block, l: Block)
    requires Walk(g, p, b, l)
    ensures b in p && (b == l || exists v :: Edge(g, b, v) && v in p)
  {
    assert |p| > 1 ==> Edge(g, p[0], p[0 + 1]) && p[1] in p;
  }

  lemma Places(f: Func)
    requires LoopText(f) && FourBlocks(f.graph)
    ensures forall id, b, i :: DefinedAt(f, id, b, i) <==> (b == 1 && 0 <= i < 2 && id == 10 + i) || (b == 2 && 0 <= i < 3 && id == 12 + i) || (b == 3 && i == 0 && id == 15)
    ensures forall id, b, i :: !PhiAt(f, id, b, i)
  {
  }

  lemma LoopIds(f: Func)
    requires LoopText(f) && FourBlocks(f.graph)
    ensures IdsApart(f)
  {
    hide LoopText, FourBlocks, DefinedAt, PhiAt;
    Places(f);
  }

  lemma LoopUses(f: Func)
    requires LoopText(f) && FourBlocks(f.graph)
    ensures forall b | 0 <= b < 4 :: BodyReady(f, b) && TermReady(f, b)
  {
    hide FourBlocks, DefinedAt, PhiAt, StrictlyDominates;
    Places(f);
    assert DefinedAt(f, 10, 1, 0) && DefinedAt(f, 11, 1, 1) && DefinedAt(f, 12, 2, 0) && DefinedAt(f, 13, 2, 1) && DefinedAt(f, 15, 3, 0);
    assert Available(f, 10, 1, 1) && Available(f, 11, 1, 2) && Available(f, 12, 2, 1) && Available(f, 13, 2, 2) && Available(f, 15, 3, 1);
  }

  lemma BlocksHere(g: Graph)
    requires FourBlocks(g)
    ensures g.entry == 0 && g.blocks == [0, 1, 2, 3]
  {
  }

  lemma LoopFunc(f: Func)
    requires LoopText(f) && FourBlocks(f.graph)
    ensures WellFormedFunc(f)
  {
    hide WellFormed;
    LoopEdges(f.graph);
  }

  lemma NoPhis(f: Func)
    requires LoopText(f) && FourBlocks(f.graph)
    ensures forall u, b | Edge(f.graph, u, b) :: u in f.body && b in f.phis && f.phis[b] == []
  {
    LoopEdges(f.graph);
  }

  lemma LoopSsa(f: Func)
    requires LoopText(f) && FourBlocks(f.graph)
    ensures WellFormedFunc(f) && SsaForm(f)
  {
    hide IdsApart, BodyReady, TermReady, FourBlocks, LoopText;
    LoopFunc(f);
    LoopIds(f);
    LoopUses(f);
    NoPhis(f);
    BlocksHere(f.graph);
  }

  lemma LoopForms()
    ensures Form(GLOBAL_LOOP) && RegisterLoops(GLOBAL_LOOP)
  {
    hide GLOBAL_LOOP, IsLatch, IsHeader, InLoop, SsaForm;
    var f := GLOBAL_LOOP;
    GraphHas();
    TextHas();
    LoopEdges(f.graph);
    LoopReached(f.graph);
    LoopHeaders(f.graph);
    LoopBlocks(f.graph);
    LoopSsa(f);
    assert CleanEntry(f, 1, 0);
  }

  // ----- what is moved -----

  lemma LoopInstrs(f: Func)
    requires LoopText(f) && FourBlocks(f.graph)
    ensures forall i :: OfLoop(f, 1, i) <==> i in [LOAD, TEST, LOAD_AGAIN, PLUS, STORE]
    ensures forall id :: !PhiOfLoop(f, 1, id)
  {
    hide InLoop, FourBlocks;
    LoopBlocks(f.graph);
    BlocksHere(f.graph);
    assert f.body[1][0] == LOAD && f.body[1][1] == TEST && f.body[2][0] == LOAD_AGAIN && f.body[2][1] == PLUS && f.body[2][2] == STORE;
  }

  lemma NoStoreMoved(impure: bool, instrs: set<Instr>, phiIds: set<Id>, inv: seq<Instr>)
    requires InvariantsSound(impure, instrs, phiIds, inv)
    ensures forall i | i in inv :: i in instrs && i != STORE
  {
    hide NoDuplicates, Invariant;
    forall i | i in inv ensures i in instrs && i != STORE {
      var k :| 0 <= k < |inv| && inv[k] == i;
    }
  }

  lemma FourInvariant(impure: bool, instrs: set<Instr>, phiIds: set<Id>, inv: seq<Instr>)
    requires (forall i :: i in instrs <==> i in [LOAD, TEST, LOAD_AGAIN, PLUS, STORE]) && (forall id :: id !in phiIds)
    requires InvariantsSound(impure, instrs, phiIds, inv) && InvariantsComplete(impure, instrs, phiIds, inv)
    ensures forall i :: i in inv <==> i in [LOAD, TEST, LOAD_AGAIN, PLUS]
  {
    hide NoDuplicates, InvariantsSound;
    NoStoreMoved(impure, instrs, phiIds, inv);
    assert LOAD in inv && LOAD_AGAIN in inv;
    assert TEST in inv && PLUS in inv;
  }

  /** The test is not moved before the load. */
  lemma LoadFirst(impure: bool, instrs: set<Instr>, phiIds: set<Id>, inv: seq<Instr>, k: nat)
    requires LOAD in instrs && InvariantsSound(impure, instrs, phiIds, inv) && k < |inv| && inv[k] == TEST
    ensures LOAD in inv[..k]
  {
    hide Movable, NoDuplicates;
    assert Res(10) in Uses(inv[k]) && Defines(LOAD) == Some(10);
  }

  /** Everything but the store is invariant, as the pass sees it. */
  lemma AllMoved(f: Func, impure: bool, instrs: set<Instr>, phiIds: set<Id>, inv: seq<Instr>)
    requires LoopText(f) && FourBlocks(f.graph) && CollectedOk(f, 1, instrs, phiIds)
    requires InvariantsSound(impure, instrs, phiIds, inv) && InvariantsComplete(impure, instrs, phiIds, inv)
    ensures forall i :: i in inv <==> i in [LOAD, TEST, LOAD_AGAIN, PLUS]
    ensures forall k | 0 <= k < |inv| && inv[k] == TEST :: LOAD in inv[..k]
  {
    hide LoopText, FourBlocks, OfLoop, PhiOfLoop, InvariantsSound, InvariantsComplete;
    LoopInstrs(f);
    FourInvariant(impure, instrs, phiIds, inv);
    forall k | 0 <= k < |inv| && inv[k] == TEST ensures LOAD in inv[..k] {
      LoadFirst(impure, instrs, phiIds, inv, k);
    }
  }

  // ----- the machine -----

  function Compute(op: Opcode, vs: seq<int>): int {
    if |vs| != 2 then 0
    else if op.Add? then vs[0] + vs[1]
    else if op == Icmp(Lt) && vs[0] < vs[1] then 1 else 0
  }

  /** What the variable holds. */
  function Stored(events: seq<Event>): int {
    if events == [] then 0
    else
      var last := events[|events| - 1];
      if last.op.StorePtr? && |last.args| > 0 then last.args[0] else Stored(events[..|events| - 1])
  }

  function Read(events: seq<Event>, op: Opcode, vs: seq<int>): int {
    if op.LoadPtr? then Stored(events) else 0
  }

  const MEMORY := Sem(Compute, Read)

  lemma StoredNext(events: seq<Event>, e: Event)
    ensures Stored(events + [e]) == if e.op.StorePtr? && |e.args| > 0 then e.args[0] else Stored(events)
  {
    assert (events + [e])[..|events|] == events;
  }

  lemma {:induction false} StoredSeen(pure: Marking.Pures, events: seq<Event>)
    ensures Stored(Marking.Visible(pure, events)) == Stored(events)
    decreases |events|
  {
    if events != [] {
      var init, last := events[..|events| - 1], events[|events| - 1];
      StoredSeen(pure, init);
      StoredNext(Marking.Visible(pure, init), last);
      assert Marking.Visible(pure, init) + [] == Marking.Visible(pure, init);
    }
  }

  /** What the machine gives depends on what can be seen only, whatever is pure. */
  lemma MemoryHonest(view: View)
    ensures Honest(view, MEMORY)
  {
    if view.Some? {
      forall events, op, vs ensures Read(events, op, vs) == Read(Marking.Visible(view.value, events), op, vs) {
        StoredSeen(view.value, events);
      }
    }
  }

  // ----- before -----

  lemma OneMore(r: Regs, before: seq<Instr>, instr: Instr)
    ensures Steps(MEMORY, [], r, before + [instr]) == Step(MEMORY, [], Steps(MEMORY, [], r, before), instr)
  {
    assert (before + [instr])[..|before|] == before;
  }

  lemma NoMore(r: Regs)
    ensures Steps(MEMORY, [], r, []) == r
  {
  }

  lemma LoadStep(r: Regs, id: Id)
    ensures var q := Step(MEMORY, [], r, Op(id, LoadPtr, [G])); q.env == r.env[id := Stored(r.events)] && Stored(q.events) == Stored(r.events)
  {
    StoredNext(r.events, Event(LoadPtr, EvalAll([], r.env, [G])));
  }

  lemma TestStep(r: Regs)
    ensures Step(MEMORY, [], r, TEST) == r.(env := r.env[11 := if Eval([], r.env, Res(10)) < 1 then 1 else 0])
  {
  }

  lemma PlusStep(r: Regs)
    ensures Step(MEMORY, [], r, PLUS) == r.(env := r.env[13 := Eval([], r.env, Res(12)) + 1])
  {
  }

  lemma StoreStep(r: Regs)
    ensures var q := Step(MEMORY, [], r, STORE); q.env == r.env[14 := 0] && Stored(q.events) == Eval([], r.env, Res(13))
  {
    StoredNext(r.events, Event(StorePtr, EvalAll([], r.env, [Res(13), G])));
  }

  lemma HeadSteps(r: Regs)
    ensures var q := Steps(MEMORY, [], r, [LOAD, TEST]);
            Stored(q.events) == Stored(r.events) && 11 in q.env && q.env[11] == if Stored(r.events) < 1 then 1 else 0
  {
    hide Step, Steps, Stored;
    NoMore(r);
    OneMore(r, [], LOAD);
    OneMore(r, [LOAD], TEST);
    assert [] + [LOAD] == [LOAD] && [LOAD] + [TEST] == [LOAD, TEST];
    LoadStep(r, 10);
    TestStep(Step(MEMORY, [], r, LOAD));
  }

  lemma ThreeSteps(r: Regs, a: Instr, b: Instr, c: Instr)
    ensures Steps(MEMORY, [], r, [a, b, c]) == Step(MEMORY, [], Step(MEMORY, [], Step(MEMORY, [], r, a), b), c)
  {
    hide Step, Steps;
    NoMore(r);
    OneMore(r, [], a);
    OneMore(r, [a], b);
    OneMore(r, [a, b], c);
    assert [] + [a] == [a] && [a] + [b] == [a, b] && [a, b] + [c] == [a, b, c];
  }

  lemma BodySteps(r: Regs)
    ensures Stored(Steps(MEMORY, [], r, [LOAD_AGAIN, PLUS, STORE]).events) == Stored(r.events) + 1
  {
    hide Step, Steps, Stored;
    ThreeSteps(r, LOAD_AGAIN, PLUS, STORE);
    var q := Step(MEMORY, [], r, LOAD_AGAIN);
    LoadStep(r, 12);
    PlusStep(q);
    StoreStep(Step(MEMORY, [], q, PLUS));
  }

  lemma HeadRuns(f: Func, r: Regs) returns (r': Regs)
    requires LoopText(f)
    ensures RunBlock(f, MEMORY, [], Running(1, r)) == Running(if Stored(r.events) < 1 then 2 else 3, r')
    ensures Stored(r'.events) == Stored(r.events)
  {
    hide Step, Steps;
    HeadSteps(r);
    r' := Steps(MEMORY, [], r, [LOAD, TEST]);
  }

  lemma BodyRuns(f: Func, r: Regs) returns (r': Regs)
    requires LoopText(f)
    ensures RunBlock(f, MEMORY, [], Running(2, r)) == Running(1, r')
    ensures Stored(r'.events) == Stored(r.events) + 1
  {
    hide Step, Steps;
    BodySteps(r);
    r' := Steps(MEMORY, [], r, [LOAD_AGAIN, PLUS, STORE]);
  }

  lemma EndRuns(f: Func, r: Regs)
    requires LoopText(f)
    ensures var m := RunBlock(f, MEMORY, [], Running(3, r)); m.Returned? && m.val == Some(Stored(r.events))
  {
    OneMore(r, [], RESULT);
    assert [] + [RESULT] == [RESULT];
  }

  /** The loop runs once. */
  lemma ReturnsOne(f: Func)
    requires LoopText(f) && FourBlocks(f.graph)
    ensures var m := Run(f, MEMORY, [], 5); m.Returned? && m.val == Some(1)
  {
    hide LoopText, FourBlocks, Steps, RunBlock;
    BlocksHere(f.graph);
    var r0 := Regs(map[], map[], [], true);
    EntryRuns(f, r0);
    var r1 := HeadRuns(f, r0);
    var r2 := BodyRuns(f, r1);
    var r3 := HeadRuns(f, r2);
    EndRuns(f, r3);
    assert Run(f, MEMORY, [], 1) == Running(1, r0);
    assert Run(f, MEMORY, [], 2) == Running(2, r1);
    assert Run(f, MEMORY, [], 3) == Running(1, r2);
    assert Run(f, MEMORY, [], 4) == Running(3, r3);
  }

  lemma EntryRuns(f: Func, r: Regs)
    requires LoopText(f)
    ensures RunBlock(f, MEMORY, [], Running(0, r)) == Running(1, r)
  {
  }

  // ----- after -----

  /** In the loop, with the test as it was in the beginning. */
  predicate Caught(m: Machine) {
    m.Running? && (m.block == 1 || m.block == 2) && 11 in m.regs.env && m.regs.env[11] == 1
  }

  ghost predicate Emptied(f': Func, pre: Block, moved: seq<Instr>) {
    && pre !in [0, 1, 2, 3] && f'.graph.entry == 0
    && (forall b | b in [0, 1, 2, pre] :: b in f'.body && b in f'.term && b in f'.phis && f'.phis[b] == [])
    && f'.body[0] == [] && f'.body[pre] == moved && f'.body[1] == [] && f'.body[2] == [STORE]
    && f'.term[0] == Br(pre) && f'.term[pre] == Br(1) && f'.term[1] == CondBr(Res(11), 2, 3) && f'.term[2] == Br(1)
  }

  lemma {:induction false} WithoutLast(ids: set<Id>, before: seq<Instr>, instr: Instr)
    ensures Without(ids, before + [instr]) == Without(ids, before) + if instr.Op? && instr.id in ids then [] else [instr]
  {
    assert (before + [instr])[..|before|] == before;
  }

  lemma WithoutTwo(ids: set<Id>, a: Instr, b: Instr)
    requires a.Op? && a.id in ids && b.Op? && b.id in ids
    ensures Without(ids, [a, b]) == []
  {
    WithoutLast(ids, [], a);
    WithoutLast(ids, [a], b);
    assert [] + [a] == [a] && [a] + [b] == [a, b];
  }

  /** Only the store is left in the loop. */
  lemma LeftInLoop(ids: set<Id>)
    requires 10 in ids && 11 in ids && 12 in ids && 13 in ids && 14 !in ids
    ensures Without(ids, []) == [] && Without(ids, [LOAD, TEST]) == [] && Without(ids, [LOAD_AGAIN, PLUS, STORE]) == [STORE]
  {
    hide Without;
    NoneWithout(ids);
    WithoutTwo(ids, LOAD, TEST);
    WithoutTwo(ids, LOAD_AGAIN, PLUS);
    WithoutLast(ids, [LOAD_AGAIN, PLUS], STORE);
    assert [LOAD_AGAIN, PLUS] + [STORE] == [LOAD_AGAIN, PLUS, STORE] && [] + [STORE] == [STORE];
  }

  lemma NoneWithout(ids: set<Id>)
    ensures Without(ids, []) == []
  {
  }

  lemma EnteredFrom(f: Func, p: Plan)
    requires LoopText(f) && FourBlocks(f.graph) && p.header == 1 && EnteredOnce(f, p)
    ensures p.outside == 0 && p.preheader !in [0, 1, 2, 3]
  {
    hide InLoop, FourBlocks, IsHeader;
    BlocksHere(f.graph);
    LoopBlocks(f.graph);
  }

  lemma EmptiedIs(f: Func, f': Func, p: Plan)
    requires LoopText(f) && FourBlocks(f.graph) && p.header == 1 && Hoistable(f, p) && Hoisted(f, f', p)
    requires forall i :: i in p.moved <==> i in [LOAD, TEST, LOAD_AGAIN, PLUS]
    ensures Emptied(f', p.preheader, p.moved)
  {
    hide InLoop, FourBlocks, ValuesOk, PairsAtHeader, LoopGraph, MovedOk, EnteredOnce, WellFormedFunc, Without;
    BlocksHere(f.graph);
    EnteredFrom(f, p);
    assert LOAD in p.moved && TEST in p.moved && LOAD_AGAIN in p.moved && PLUS in p.moved;
    LeftInLoop(IdsOf(p.moved));
    assert forall b | 0 <= b < 3 :: b in f.graph.blocks;
  }

  /** Before the loop the variable holds 0, and the test gives 1. */
  predicate InFront(done: seq<Instr>, r: Regs) {
    Stored(r.events) == 0 && (LOAD in done ==> 10 in r.env && r.env[10] == 0) && (TEST in done ==> 11 in r.env && r.env[11] == 1)
  }

  lemma InFrontNext(done: seq<Instr>, r: Regs, instr: Instr)
    requires InFront(done, r) && instr in [LOAD, TEST, LOAD_AGAIN, PLUS] && (instr == TEST ==> LOAD in done)
    ensures InFront(done + [instr], Step(MEMORY, [], r, instr))
  {
    hide Step, Stored;
    LoadStep(r, 10);
    LoadStep(r, 12);
    TestStep(r);
    PlusStep(r);
  }

  lemma {:induction false} MovedRuns(moved: seq<Instr>, r: Regs, n: nat)
    requires n <= |moved| && (forall i | i in moved :: i in [LOAD, TEST, LOAD_AGAIN, PLUS]) && Stored(r.events) == 0
    requires forall k | 0 <= k < |moved| && moved[k] == TEST :: LOAD in moved[..k]
    ensures InFront(moved[..n], Steps(MEMORY, [], r, moved[..n]))
    decreases n
  {
    hide Step, Stored;
    if n == 0 {
      NoMore(r);
    } else {
      MovedRuns(moved, r, n - 1);
      var before, instr := moved[..n - 1], moved[n - 1];
      assert moved[..n] == before + [instr] && instr in moved;
      InFrontNext(before, Steps(MEMORY, [], r, before), instr);
      OneMore(r, before, instr);
    }
  }

  lemma CaughtOn(f': Func, pre: Block, moved: seq<Instr>, m: Machine)
    requires Emptied(f', pre, moved) && Caught(m)
    ensures Caught(RunBlock(f', MEMORY, [], m))
  {
    hide Step;
    NoMore(m.regs);
    OneMore(m.regs, [], STORE);
    assert [] + [STORE] == [STORE];
    StoreStep(m.regs);
  }

  lemma {:induction false} NeverReturns(f': Func, pre: Block, moved: seq<Instr>, n: nat)
    requires Emptied(f', pre, moved) && (forall i :: i in moved <==> i in [LOAD, TEST, LOAD_AGAIN, PLUS])
    requires forall k | 0 <= k < |moved| && moved[k] == TEST :: LOAD in moved[..k]
    ensures var m := Run(f', MEMORY, [], n);
            m.Running? && (n == 0 ==> m == Start(f')) && (n == 1 ==> m == Running(pre, Start(f').regs)) && (n > 1 ==> Caught(m))
  {
    hide Steps;
    if n == 1 {
      NoMore(Start(f').regs);
    }
    if n == 2 {
      NeverReturns(f', pre, moved, 1);
      MovedRuns(moved, Start(f').regs, |moved|);
      assert moved[..|moved|] == moved;
    }
    if n > 2 {
      NeverReturns(f', pre, moved, n - 1);
      CaughtOn(f', pre, moved, Run(f', MEMORY, [], n - 1));
    }
  }

  /** Whatever the pass makes of the function does not end, while the function returns 1. */
  lemma MotionUnsound(f': Func, impure: bool, view: View)
    requires Rewritten(GLOBAL_LOOP, f', impure, 1)
    ensures Honest(view, MEMORY) && Run(GLOBAL_LOOP, MEMORY, [], 5).Returned? && Run(GLOBAL_LOOP, MEMORY, [], 5).val == Some(1)
    ensures forall n: nat :: Run(f', MEMORY, [], n).Running?
    ensures !Lags(view, GLOBAL_LOOP, f')
  {
    hide GLOBAL_LOOP, LoopText, FourBlocks, Run, Hoistable, Hoisted, CollectedOk, InvariantsSound, InvariantsComplete, Emptied, Honest, Alike;
    var f := GLOBAL_LOOP;
    GraphHas();
    TextHas();
    MemoryHonest(view);
    ReturnsOne(f);
    var p: Plan, instrs: set<Instr>, phiIds: set<Id> :| p.header == 1 && CollectedOk(f, 1, instrs, phiIds)
      && InvariantsSound(impure, instrs, phiIds, p.moved) && InvariantsComplete(impure, instrs, phiIds, p.moved)
      && if p.moved == [] then f' == f else Hoistable(f, p) && Hoisted(f, f', p);
    AllMoved(f, impure, instrs, phiIds, p.moved);
    assert LOAD in p.moved;
    EmptiedIs(f, f', p);
    forall n: nat ensures Run(f', MEMORY, [], n).Running? {
      NeverReturns(f', p.preheader, p.moved, n);
    }
    assert !LagsAt(view, f, f', MEMORY, [], 5);
  }
}
