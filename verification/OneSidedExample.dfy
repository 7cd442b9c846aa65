/** A variable that is set on some ways only: its phi is copied although it has no value, and nothing goes wrong. */
module OneSidedExample {
  import opened Common
  import opened Cfg
  import opened LoongArch
  import opened Frame
  import opened LowIr
  import opened Fragments
  import opened Allocation
  import opened PhiCopies
  import opened Emission
  import opened MachineRun
  import opened CodeGeneration

  /** int f(int a, int b) { int x; if (a) x = 1; if (b) x = 2; return x; } */
  const ONE_SIDED: Function := Function(
    [1, 2],
    [0, 1, 2, 3, 4],
    map[0 := [], 1 := [], 2 := [Phi(20, [(Int(1), 1)])], 3 := [], 4 := [Phi(21, [(Var(20), 2), (Int(2), 3)])]],
    map[0 := [Compare(10, Ne, Var(1), Int(0))], 1 := [], 2 := [Compare(11, Ne, Var(2), Int(0))], 3 := [], 4 := []],
    map[0 := CondBr(Var(10), 1, 2), 1 := Br(2), 2 := CondBr(Var(11), 3, 4), 3 := Br(4), 4 := Ret(Some(Var(21)))],
    map[1 := I32, 2 := I32, 10 := I1, 11 := I1, 20 := I32, 21 := I32])

  lemma OneSidedText()
    ensures HasBlocks(ONE_SIDED) && ONE_SIDED.blocks == [0, 1, 2, 3, 4]
    ensures ONE_SIDED.body[0] == [Compare(10, Ne, Var(1), Int(0))] && ONE_SIDED.term[0] == CondBr(Var(10), 1, 2)
    ensures ONE_SIDED.body[2] == [Compare(11, Ne, Var(2), Int(0))] && ONE_SIDED.term[2] == CondBr(Var(11), 3, 4)
    ensures ONE_SIDED.body[3] == [] && ONE_SIDED.term[3] == Br(4)
    ensures ONE_SIDED.body[4] == [] && ONE_SIDED.term[4] == Ret(Some(Var(21)))
  {
  }

  lemma OneSidedCopies(b: Block)
    requires 0 <= b < 4
    ensures CopiesInto(ONE_SIDED, 1, b) == [] && CopiesInto(ONE_SIDED, 3, b) == []
    ensures CopiesInto(ONE_SIDED, 2, b) == if b == 1 then [(20, Int(1))] else []
    ensures CopiesInto(ONE_SIDED, 4, b) == if b == 2 then [(21, Var(20))] else if b == 3 then [(21, Int(2))] else []
  {
    OneEdgeCopy(Phi(20, [(Int(1), 1)]), b);
    OneEdgeCopy(Phi(21, [(Var(20), 2), (Int(2), 3)]), b);
  }

  lemma OneEdgeCopy(phi: Phi, from: Block)
    ensures EdgeCopies([phi], from) == match IncomingOperand(phi.pairs, from) case Some(v) => [(phi.id, v)] case None => []
  {
    assert [phi][..0] == [];
  }

  /** Frames in which the values of the example have their slots. */
  ghost predicate OneSidedFrame(l: Layout) {
    l.ty == map[1 := I32, 2 := I32, 10 := I1, 11 := I1, 20 := I32, 21 := I32] && forall id | id in l.ty :: id in l.off
  }

  ghost predicate GoesTo(l: Layout, b: Block, s: IrState, m: IrMachine) {
    HasBlocks(ONE_SIDED) && b in ONE_SIDED.blocks && BlockSafe(l, ONE_SIDED, b, s) && RunBlock(l, ONE_SIDED, b, s) == m
  }

  /** A test against 0. */
  lemma TestsZero(l: Layout, s: IrState, id: Id, a: Id)
    requires OneSidedFrame(l) && (id == 10 || id == 11) && (a == 1 || a == 2) && a in s.env
    ensures var insts := [Compare(id, Ne, Var(a), Int(0))];
            SafeAll(l, s, insts) && StepAll(l, s, insts) == s.(env := s.env[id := if s.env[a] != 0 then 1 else 0])
  {
    assert [Compare(id, Ne, Var(a), Int(0))][..0] == [];
  }

  /** A conditional branch on a value that no phi overwrites. */
  lemma CondGoes(l: Layout, f: Function, b: Block, s: IrState, id: Id, t: Block, u: Block)
    requires HasBlocks(f) && b in f.blocks && f.term[b] == CondBr(Var(id), t, u) && SafeAll(l, s, f.body[b])
    requires var s1 := StepAll(l, s, f.body[b]); id in s1.env && id in l.ty && l.ty[id] == I1
    requires var cs := CopiesInto(f, t, b) + CopiesInto(f, u, b); CopiesTyped(l, cs) && CopyFree(cs) && forall c | c in cs :: c.0 != id
    ensures BlockSafe(l, f, b, s)
    ensures var s1 := StepAll(l, s, f.body[b]);
            RunBlock(l, f, b, s) == if s1.env[id] != 0 then In(t, AfterEdge(l, s1, CopiesInto(f, t, b), CopiesInto(f, u, b)))
                                    else In(u, AfterEdge(l, s1, CopiesInto(f, u, b), CopiesInto(f, t, b)))
  {
    hide SafeAll, StepAll, CopiesInto, CopiesFor, CopiesTyped, CopyFree, ParallelCopy, AfterEdge;
    CopiesForTwo(f, t, u, b);
    ParallelOther(l, StepAll(l, s, f.body[b]), CopiesFor(f.phis, [t, u], b), id);
  }

  /** Nothing is copied, and what the other edge would overwrite has no value. */
  lemma NothingCopied(l: Layout, s: IrState, other: seq<Copy>)
    requires forall c | c in other :: c.0 !in s.env
    ensures AfterEdge(l, s, [], other) == s
  {
    assert forall i :: i in s.env - CopyTargets(other) <==> i in s.env;
    assert s.env - (CopyTargets(other) - CopyTargets([])) == s.env;
  }

  lemma FirstBlock(l: Layout, s: IrState, s': IrState)
    requires OneSidedFrame(l) && s.env == map[1 := 0, 2 := 1] && s' == s.(env := s.env[10 := 0])
    ensures GoesTo(l, 0, s, In(2, s'))
  {
    hide ONE_SIDED, SafeAll, StepAll, CopiesInto, CopiesFor, BlockSafe, RunBlock, AfterEdge;
    OneSidedText();
    OneSidedCopies(0);
    TestsZero(l, s, 10, 1);
    CondGoes(l, ONE_SIDED, 0, s, 10, 1, 2);
    NothingCopied(l, s', []);
  }

  lemma SecondJoin(l: Layout, s: IrState, s': IrState)
    requires OneSidedFrame(l) && s.env == map[1 := 0, 2 := 1, 10 := 0] && s' == s.(env := s.env[11 := 1])
    ensures GoesTo(l, 2, s, In(3, s'))
  {
    hide ONE_SIDED, SafeAll, StepAll, CopiesInto, CopiesFor, BlockSafe, RunBlock, AfterEdge;
    OneSidedText();
    OneSidedCopies(2);
    TestsZero(l, s, 11, 2);
    var cs: seq<Copy> := [(21, Var(20))];
    assert [] + cs == cs;
    CondGoes(l, ONE_SIDED, 2, s, 11, 3, 4);
    NothingCopied(l, s', cs);
  }

  lemma ThenBlock(l: Layout, s: IrState, s': IrState)
    requires OneSidedFrame(l) && s' == s.(env := s.env[21 := 2])
    ensures GoesTo(l, 3, s, In(4, s'))
  {
    hide ONE_SIDED, CopiesInto, CopiesFor;
    OneSidedText();
    CopiesForOne(ONE_SIDED, 4, 3);
    OneSidedCopies(3);
    var cs: seq<Copy> := [(21, Int(2))];
    assert cs[..0] == [] && ParallelCopy(l, s, cs) == s';
    assert CopiesTyped(l, cs) && CopyFree(cs);
  }

  lemma LastBlock(l: Layout, s: IrState)
    requires OneSidedFrame(l) && 21 in s.env && s.env[21] == 2
    ensures GoesTo(l, 4, s, Finished(Some(2), s.mem, s.trace))
  {
    hide ONE_SIDED;
    OneSidedText();
  }

  lemma FourBlocks(l: Layout, s0: IrState, s1: IrState, s2: IrState, s3: IrState, m: IrMachine)
    requires GoesTo(l, 0, s0, In(2, s1)) && GoesTo(l, 2, s1, In(3, s2)) && GoesTo(l, 3, s2, In(4, s3)) && GoesTo(l, 4, s3, m)
    ensures RunSafe(l, ONE_SIDED, In(0, s0), 4) && Run(l, ONE_SIDED, In(0, s0), 4) == m
  {
    hide BlockSafe, RunBlock, ONE_SIDED;
    assert Run(l, ONE_SIDED, In(0, s0), 1) == In(2, s1);
    assert Run(l, ONE_SIDED, In(0, s0), 2) == In(3, s2);
    assert Run(l, ONE_SIDED, In(0, s0), 3) == In(4, s3);
  }

  /** Called with 0 and 1 the function copies the unset x in front of the second join, and yet the run is safe and returns 2. */
  lemma OneSidedReturns(l: Layout, mem: Memory, trace: Trace)
    requires OneSidedFrame(l)
    ensures var start := In(0, IrState(map[1 := 0, 2 := 1], mem, trace));
            HasBlocks(ONE_SIDED) && RunSafe(l, ONE_SIDED, start, 4) && Run(l, ONE_SIDED, start, 4) == Finished(Some(2), mem, trace)
  {
    hide GoesTo, RunSafe, Run, ONE_SIDED;
    OneSidedText();
    var s0 := IrState(map[1 := 0, 2 := 1], mem, trace);
    var s1 := s0.(env := s0.env[10 := 0]);
    var s2 := s1.(env := s1.env[11 := 1]);
    var s3 := s2.(env := s2.env[21 := 2]);
    FirstBlock(l, s0, s1);
    SecondJoin(l, s1, s2);
    ThenBlock(l, s2, s3);
    LastBlock(l, s3);
    FourBlocks(l, s0, s1, s2, s3, Finished(Some(2), mem, trace));
  }

  // ----- the text for it -----

  lemma OneSidedItems()
    ensures Items(ONE_SIDED) == [Slot(1, 4), Slot(2, 4), Slot(10, 1), Slot(20, 4), Slot(11, 1), Slot(21, 4)]
  {
    var f := ONE_SIDED;
    OneSidedText();
    OneSidedPhis();
    TwoArgs(f.ty, 1, 2);
    OnePhi(f.ty, Phi(20, [(Int(1), 1)]));
    OnePhi(f.ty, Phi(21, [(Var(20), 2), (Int(2), 3)]));
    OneInst(f.ty, Compare(10, Ne, Var(1), Int(0)));
    OneInst(f.ty, Compare(11, Ne, Var(2), Int(0)));
    FiveBlocks(f);
  }

  lemma OneSidedPhis()
    ensures ONE_SIDED.phis[0] == [] && ONE_SIDED.phis[1] == [] && ONE_SIDED.phis[2] == [Phi(20, [(Int(1), 1)])] && ONE_SIDED.phis[3] == []
    ensures ONE_SIDED.phis[4] == [Phi(21, [(Var(20), 2), (Int(2), 3)])] && ONE_SIDED.body[1] == [] && ONE_SIDED.args == [1, 2]
    ensures ONE_SIDED.ty == map[1 := I32, 2 := I32, 10 := I1, 11 := I1, 20 := I32, 21 := I32] && ONE_SIDED.term[1] == Br(2)
    ensures forall b :: b in ONE_SIDED.phis <==> 0 <= b < 5
  {
  }

  lemma TwoArgs(ty: map<Id, Type>, a: Id, b: Id)
    ensures ArgItems(ty, [a, b]) == [Slot(a, SizeOf(ty, a)), Slot(b, SizeOf(ty, b))]
  {
    assert [a, b][1..] == [b] && [b][1..] == [];
    assert ArgItems(ty, [b]) == [Slot(b, SizeOf(ty, b))];
  }

  lemma OnePhi(ty: map<Id, Type>, phi: Phi)
    ensures PhiItems(ty, [phi]) == [Slot(phi.id, SizeOf(ty, phi.id))] && PhiItems(ty, []) == []
  {
    assert [phi][1..] == [];
  }

  lemma OneInst(ty: map<Id, Type>, inst: Inst)
    ensures InstItems(ty, [inst]) == ItemsOf(ty, inst) && InstItems(ty, []) == []
  {
    assert [inst][1..] == [];
  }

  lemma FiveBlocks(f: Function)
    ensures BlockItems(f, [0, 1, 2, 3, 4]) == ItemsIn(f, 0) + ItemsIn(f, 1) + ItemsIn(f, 2) + ItemsIn(f, 3) + ItemsIn(f, 4)
  {
    hide ItemsIn;
    var s: seq<Block> := [0, 1, 2, 3, 4];
    assert s[1..] == [1, 2, 3, 4] && s[2..] == [2, 3, 4] && s[3..] == [3, 4] && s[4..] == [4] && s[5..] == [];
    assert [1, 2, 3, 4][1..] == s[2..] && [2, 3, 4][1..] == s[3..] && [3, 4][1..] == s[4..] && [4][1..] == s[5..];
    assert BlockItems(f, s[5..]) == [];
    assert BlockItems(f, s[4..]) == ItemsIn(f, 4);
    assert BlockItems(f, s[3..]) == ItemsIn(f, 3) + ItemsIn(f, 4);
    assert BlockItems(f, s[2..]) == ItemsIn(f, 2) + ItemsIn(f, 3) + ItemsIn(f, 4);
    assert BlockItems(f, s[1..]) == ItemsIn(f, 1) + ItemsIn(f, 2) + ItemsIn(f, 3) + ItemsIn(f, 4);
  }

  const SLOT_IDS: set<Id> := {1, 2, 10, 20, 11, 21}

  lemma OneSidedSlots()
    ensures SlotsDistinct(Items(ONE_SIDED)) && SlotIds(Items(ONE_SIDED)) == SLOT_IDS && Total(Items(ONE_SIDED)) == 18
  {
    hide ONE_SIDED, Items, Total;
    OneSidedItems();
    var items := [Slot(1, 4), Slot(2, 4), Slot(10, 1), Slot(20, 4), Slot(11, 1), Slot(21, 4)];
    SixTotal(items[0], items[1], items[2], items[3], items[4], items[5]);
    assert items[0] in items && items[1] in items && items[2] in items && items[3] in items && items[4] in items && items[5] in items;
  }

  lemma SixTotal(a: Item, b: Item, c: Item, d: Item, e: Item, f: Item)
    ensures Total([a, b, c, d, e, f]) == a.size + b.size + c.size + d.size + e.size + f.size
  {
    var s := [a, b, c, d, e, f];
    assert s[..5] == [a, b, c, d, e] && [a, b, c, d, e][..4] == [a, b, c, d] && [a, b, c, d][..3] == [a, b, c];
    assert [a, b, c][..2] == [a, b] && [a, b][..1] == [a] && [a][..0] == [];
    assert Total([a]) == a.size;
    assert Total([a, b]) == a.size + b.size;
    assert Total([a, b, c]) == a.size + b.size + c.size;
    assert Total([a, b, c, d]) == a.size + b.size + c.size + d.size;
  }

  lemma OneSidedReady()
    ensures FunctionReady(ONE_SIDED, SLOT_IDS)
  {
    hide ONE_SIDED, Placed, PhisReady;
    OneSidedText();
    OneSidedPhis();
    OneSidedPlaced();
    OneSidedPhisReady();
    assert forall id :: id in ONE_SIDED.ty <==> id in SLOT_IDS;
  }

  lemma OneSidedPlaced()
    ensures forall id | id in SLOT_IDS :: Placed(SLOT_IDS, ONE_SIDED.ty, Var(id))
    ensures forall c | 0 <= c < 3 :: Placed(SLOT_IDS, ONE_SIDED.ty, Int(c))
  {
    hide ONE_SIDED;
    OneSidedPhis();
  }

  lemma OneSidedPhisReady()
    ensures PhisReady(SLOT_IDS, ONE_SIDED)
  {
    hide ONE_SIDED, Placed;
    OneSidedPhis();
    OneSidedPlaced();
  }

  lemma OneSidedControl()
    ensures HasBlocks(ONE_SIDED) && ControlOk(ONE_SIDED) && NoDuplicates(ONE_SIDED.blocks)
  {
    hide ONE_SIDED, Targets;
    OneSidedText();
    OneSidedTargets();
    OneSidedPhiIds();
  }

  lemma OneSidedTargets()
    ensures HasBlocks(ONE_SIDED) && forall b, t | b in ONE_SIDED.blocks && t in Targets(ONE_SIDED.term[b]) :: t in [0, 1, 2, 3, 4]
  {
    hide ONE_SIDED;
    OneSidedText();
    OneSidedPhis();
  }

  lemma OneSidedPhiIds()
    ensures forall b, i | b in ONE_SIDED.phis && 0 <= i < |ONE_SIDED.phis[b]| :: (b == 2 && ONE_SIDED.phis[b][i].id == 20) || (b == 4 && ONE_SIDED.phis[b][i].id == 21)
  {
    hide ONE_SIDED;
    OneSidedPhis();
  }

  /** All that the generator asks for. */
  lemma OneSidedAccepted()
    ensures HasBlocks(ONE_SIDED) && SlotsDistinct(Items(ONE_SIDED)) && SlotIds(Items(ONE_SIDED)) == SLOT_IDS && FunctionReady(ONE_SIDED, SLOT_IDS)
    ensures |ONE_SIDED.args| == 2 && Total(Items(ONE_SIDED)) == 18 && ControlOk(ONE_SIDED) && 5 !in ONE_SIDED.blocks && ONE_SIDED.blocks != []
  {
    hide ONE_SIDED, FunctionReady, SlotsDistinct, Items, Total, SlotIds, ControlOk, HasBlocks;
    OneSidedText();
    OneSidedPhis();
    OneSidedSlots();
    OneSidedReady();
    OneSidedControl();
  }

  lemma OneSidedTyped(off: map<Id, int>)
    requires off.Keys == SLOT_IDS
    ensures Typed(ONE_SIDED, off)
  {
    hide ONE_SIDED;
    OneSidedPhis();
  }

  /** The generator takes the function, and the text that it emits returns 2 when it is called with 0 and 1. */
  method GenOneSided() returns (gen: CodeGen)
    ensures forall st | Called(ONE_SIDED, gen.offsetMap, gen.frameSize, [0, 1], st) :: EndsWithTwo(gen.output, st)
  {
    hide ONE_SIDED, Called, Implements, FunctionReady, SlotsDistinct, Items, Total, SlotIds, ControlOk, FunctionText, Allocated, EndsWithTwo, Typed, HasBlocks, IntOffsets;
    OneSidedAccepted();
    gen := new CodeGen();
    ghost var enter, em, tail := gen.GenFunction(ONE_SIDED, 5);
    AllocatedIds(ONE_SIDED, gen.offsetMap, gen.frameSize);
    OneSidedTyped(gen.offsetMap);
    forall st | Called(ONE_SIDED, gen.offsetMap, gen.frameSize, [0, 1], st) ensures EndsWithTwo(gen.output, st) {
      TextReturns(gen.offsetMap, gen.frameSize, gen.output, st);
    }
  }

  predicate ReturnsTwo(m: Machine) {
    m.Exited? && Get(m.st.regs, A(0)) == 2
  }

  ghost predicate EndsWithTwo(prog: seq<Asm>, st: State) {
    exists k: nat :: ReturnsTwo(Steps(prog, At(0, st), k))
  }

  lemma TextReturns(off: map<Id, int>, frameSize: nat, prog: seq<Asm>, st: State)
    requires HasBlocks(ONE_SIDED) && ONE_SIDED.blocks != [] && Implements(ONE_SIDED, off, frameSize, prog) && off.Keys == SLOT_IDS
    requires Called(ONE_SIDED, off, frameSize, [0, 1], st)
    ensures EndsWithTwo(prog, st)
  {
    hide ONE_SIDED, Called, RunSafe, Run, Steps, FrameOf;
    OneSidedPhis();
    OneSidedText();
    var l := FrameOf(st, off, ONE_SIDED.ty, frameSize);
    FrameTyped(off, frameSize, st);
    OneSidedReturns(l, st.mem, st.trace);
    ArgsTwo();
    assert RunSafe(l, ONE_SIDED, In(ONE_SIDED.blocks[0], IrState(ArgEnv(ONE_SIDED.args, [0, 1]), st.mem, st.trace)), 4);
    var k: nat :| RunsThere(ONE_SIDED, off, frameSize, prog, [0, 1], st, 4, k);
    assert ReturnsTwo(Steps(prog, At(0, st), k));
  }

  lemma FrameTyped(off: map<Id, int>, frameSize: nat, st: State)
    requires off.Keys == SLOT_IDS
    ensures OneSidedFrame(FrameOf(st, off, ONE_SIDED.ty, frameSize))
  {
    hide ONE_SIDED;
    OneSidedPhis();
    assert forall id | id in SLOT_IDS :: id in off;
  }

  lemma ArgsTwo()
    ensures ArgEnv([1, 2], [0, 1]) == map[1 := 0, 2 := 1]
  {
    var a: seq<Id>, v: seq<int> := [1, 2], [0, 1];
    assert a[..1] == [1] && v[..1] == [0] && [1][..0] == [] && [0][..0] == [];
    assert ArgEnv([1], [0]) == map[1 := 0];
  }

  // ----- such calls exist -----

  /** Nothing is called, and nothing would be changed. */
  const QUIET: Callees := Callees((c, regs, mem, trace) => (regs, mem), c => 0, c => true, (c, vs, mem, trace) => 0, (c, vs, mem, trace) => mem, 0)

  /** For every frame that the generator may choose there is a state in which the function is called with 0 and 1. */
  lemma OneSidedCalled(off: map<Id, int>, frameSize: nat) returns (st: State)
    requires frameSize < TWO_31
    ensures Called(ONE_SIDED, off, frameSize, [0, 1], st)
  {
    hide ONE_SIDED, Obeys, FrameOf, OneSidedFrame;
    OneSidedPhis();
    st := State(map[A(0) := 0, A(1) := 1, Sp := TWO_31], map[], map[], QUIET, []);
    var l := FrameOf(st, off, ONE_SIDED.ty, frameSize);
    FrameCallees(st, off, ONE_SIDED.ty, frameSize);
    forall callee, regs, mem, seen, trace | Get(regs, Sp) == l.sp && SamePublic(l, mem, seen) ensures Obeys(l, callee, regs, mem, seen, trace) {
      QuietObeys(l, callee, regs, mem, seen, trace);
    }
  }

  lemma FrameCallees(st: State, off: map<Id, int>, ty: map<Id, Type>, frameSize: nat)
    ensures FrameOf(st, off, ty, frameSize).callees == st.callees
  {
    hide StoreBytes;
  }

  lemma QuietObeys(l: Layout, callee: int, regs: Regs, mem: Memory, seen: Memory, trace: Trace)
    requires l.callees == QUIET && SamePublic(l, mem, seen)
    ensures Obeys(l, callee, regs, mem, seen, trace)
  {
    hide Private, ByteAt;
  }
}
