/** A function that works on an array of its own: it is found to be pure, and calls of it give a value and change nothing. */
module PureExample {
  import opened Common
  import opened Cfg
  import opened Ir
  import opened Ssa
  import Info = FunctionInfo
  import opened Purity

  const PLACE := Op(10, Alloca(0), [])
  const CELL := Op(11, Gep, [Res(10), Const(0), Const(1)])
  const STORE := Op(12, StorePtr, [Arg(0), Res(11)])
  const FETCH := Op(13, LoadPtr, [Res(11)])
  const PRODUCT := Op(14, Mul, [Res(13), Res(13)])

  /** int square(int x) { int t[2]; t[1] = x; return t[1] * t[1]; } */
  const SQUARE: Func := Func(Graph(0, [0], map[0 := []], map[0 := []]), map[0 := []], map[0 := [PLACE, CELL, STORE, FETCH, PRODUCT]], map[0 := Ret(Some(Res(14)))])

  /** What the analysis is told: one store and one load, both in the array. */
  const KNOWN: Info.Program := map[7 := Info.Function(false, false, [Info.Integer],
    [Info.Other, Info.Other, Info.StoreTo(Info.OfGep(Info.OfAlloca)), Info.LoadFrom(Info.OfGep(Info.OfAlloca)), Info.Other], [])]

  lemma SquareText()
    ensures WellFormedFunc(SQUARE) && SQUARE.graph.blocks == [0] && SQUARE.graph.entry == 0 && SQUARE.graph.succ[0] == []
    ensures SQUARE.body[0] == [PLACE, CELL, STORE, FETCH, PRODUCT] && SQUARE.phis[0] == [] && SQUARE.term[0] == Ret(Some(Res(14)))
  {
  }

  lemma SquarePlaces()
    ensures forall id, b, i :: DefinedAt(SQUARE, id, b, i) <==> b == 0 && 0 <= i < 5 && id == 10 + i
    ensures forall id, b, i :: !PhiAt(SQUARE, id, b, i)
  {
    hide SQUARE;
    SquareText();
  }

  lemma SquareSsa()
    ensures WellFormedFunc(SQUARE) && SsaForm(SQUARE)
  {
    hide SQUARE, StrictlyDominates;
    SquareText();
    SquarePlaces();
    var f := SQUARE;
    assert DefinedAt(f, 10, 0, 0) && DefinedAt(f, 11, 0, 1) && DefinedAt(f, 13, 0, 3) && DefinedAt(f, 14, 0, 4);
    assert Available(f, 10, 0, 1) && Available(f, 11, 0, 2) && Available(f, 11, 0, 3) && Available(f, 13, 0, 4) && Available(f, 14, 0, 5);
  }

  lemma CellAddress()
    ensures AddressIs(SQUARE, Res(11), Info.OfGep(Info.OfAlloca))
  {
    hide SQUARE;
    SquareText();
    SquarePlaces();
    assert DefinedAt(SQUARE, 10, 0, 0) && SQUARE.body[0][0] == PLACE;
    assert DefinedAt(SQUARE, 11, 0, 1) && SQUARE.body[0][1] == CELL;
    assert DefinedBy(SQUARE, 10, PLACE) && DefinedBy(SQUARE, 11, CELL);
    assert AddressIs(SQUARE, Res(10), Info.OfAlloca);
  }

  /** What the analysis is told is right. */
  lemma SquareDescribed()
    ensures Describes(map[7 := SQUARE], KNOWN)
  {
    hide SQUARE, AddressIs, SsaForm;
    SquareText();
    SquareSsa();
    CellAddress();
    var insts := KNOWN[7].insts;
    assert insts[2] in insts && insts[3] in insts;
  }

  /** The analysis finds it pure. */
  method FindSquare() returns (pure: bool)
    ensures pure && IsPure(KNOWN, 7)
  {
    hide Info.StartsAtAlloca, Info.CallsImpure;
    var info := new Info.FuncInfo(KNOWN, [7]);
    info.Run();
    pure := info.isPure[7];
    SquarePure();
  }

  lemma SquarePure()
    ensures IsPure(KNOWN, 7)
  {
    hide Info.StartsAtAlloca;
    Info.FirstAddrExact(Info.OfGep(Info.OfAlloca));
    forall chain | Info.CallChain(KNOWN, chain) ensures !Info.ReachesOut(KNOWN[chain[|chain| - 1]]) {
      assert chain[|chain| - 1] == 7;
    }
  }

  // ----- calling it -----

  function Compute(d: nat, op: Opcode, vs: seq<int>): int {
    match op
    case Alloca(_) => d
    case Gep => if |vs| > 0 then vs[0] else 0
    case Mul => if |vs| == 2 then vs[0] * vs[1] else 0
    case _ => 0
  }

  /** The frame of a call is one cell, whose address is its depth. */
  const PROGRAM: Program := Program(map[7 := SQUARE], (d, a) => a == d, Compute, (w, c, vs) => (0, w))

  lemma ProgramFrames()
    ensures FramesOk(PROGRAM) && PROGRAM.funcs == map[7 := SQUARE]
  {
  }

  lemma OneMore(sem: Sem, args: seq<int>, r: Regs, before: seq<Instr>, instr: Instr)
    ensures Steps(sem, args, r, before + [instr]) == Step(sem, args, Steps(sem, args, r, before), instr)
  {
    assert (before + [instr])[..|before|] == before;
  }

  lemma FiveSteps(sem: Sem, args: seq<int>, r: Regs, a: Instr, b: Instr, c: Instr, d: Instr, e: Instr)
    ensures Steps(sem, args, r, [a, b, c, d, e])
            == Step(sem, args, Step(sem, args, Step(sem, args, Step(sem, args, Step(sem, args, r, a), b), c), d), e)
  {
    hide Step;
    assert [a, b, c, d, e] == [a, b, c, d] + [e] && [a, b, c, d] == [a, b, c] + [d] && [a, b, c] == [a, b] + [c] && [a, b] == [a] + [b] && [a] == [] + [a];
    OneMore(sem, args, r, [a, b, c, d], e);
    OneMore(sem, args, r, [a, b, c], d);
    OneMore(sem, args, r, [a, b], c);
    OneMore(sem, args, r, [a], b);
    OneMore(sem, args, r, [], a);
  }

  /** A load finds what has just been stored. */
  lemma FetchStored(d: nat, fuel: nat, w: State, x: int)
    ensures SemAt(PROGRAM, d, fuel, w).outside([Event(StorePtr, [x, d])], LoadPtr, [d]) == x
  {
    var events := [Event(StorePtr, [x, d])];
    assert events[..0] == [];
    assert Replay(PROGRAM, d, fuel, w, []) == w;
    assert Replay(PROGRAM, d, fuel, w, events) == Stored(w, [x, d]);
  }

  /** The first two steps compute the address, and the third stores there. */
  lemma StoreSteps(d: nat, fuel: nat, w: State, x: int, r: Regs) returns (q: Regs)
    requires r.events == []
    ensures var sem := SemAt(PROGRAM, d, fuel, w); q == Step(sem, [x], Step(sem, [x], Step(sem, [x], r, PLACE), CELL), STORE)
    ensures 11 in q.env && q.env[11] == d && q.events == [Event(StorePtr, [x, d])]
  {
    hide EvalAll, SemAt;
    var sem := SemAt(PROGRAM, d, fuel, w);
    ComputesAs(d, fuel, w);
    Operands([x], r.env, PLACE);
    var r1 := Step(sem, [x], r, PLACE);
    Operands([x], r1.env, CELL);
    var r2 := Step(sem, [x], r1, CELL);
    Operands([x], r2.env, STORE);
    q := Step(sem, [x], r2, STORE);
  }

  /** The last two load it and multiply. */
  lemma ProductSteps(d: nat, fuel: nat, w: State, x: int, r: Regs)
    requires 11 in r.env && r.env[11] == d && r.events == [Event(StorePtr, [x, d])]
    ensures var sem := SemAt(PROGRAM, d, fuel, w);
            var q := Step(sem, [x], Step(sem, [x], r, FETCH), PRODUCT); 14 in q.env && q.env[14] == x * x
  {
    hide EvalAll, SemAt;
    var sem := SemAt(PROGRAM, d, fuel, w);
    ComputesAs(d, fuel, w);
    FetchStored(d, fuel, w, x);
    Operands([x], r.env, FETCH);
    var r1 := Step(sem, [x], r, FETCH);
    Operands([x], r1.env, PRODUCT);
  }

  lemma SquareSteps(d: nat, fuel: nat, w: State, x: int, r: Regs)
    requires r.events == []
    ensures var q := Steps(SemAt(PROGRAM, d, fuel, w), [x], r, [PLACE, CELL, STORE, FETCH, PRODUCT]); 14 in q.env && q.env[14] == x * x
  {
    hide Step, SemAt, Steps;
    FiveSteps(SemAt(PROGRAM, d, fuel, w), [x], r, PLACE, CELL, STORE, FETCH, PRODUCT);
    var q := StoreSteps(d, fuel, w, x, r);
    ProductSteps(d, fuel, w, x, q);
  }

  lemma ComputesAs(d: nat, fuel: nat, w: State)
    ensures forall op, vs :: SemAt(PROGRAM, d, fuel, w).pure(op, vs) == Compute(d, op, vs)
  {
  }

  lemma Operands(args: seq<int>, env: map<Id, int>, instr: Instr)
    requires instr.Op?
    ensures |instr.args| == 0 ==> EvalAll(args, env, instr.args) == []
    ensures |instr.args| == 1 ==> EvalAll(args, env, instr.args) == [Eval(args, env, instr.args[0])]
    ensures |instr.args| == 2 ==> EvalAll(args, env, instr.args) == [Eval(args, env, instr.args[0]), Eval(args, env, instr.args[1])]
    ensures |instr.args| == 3 ==> EvalAll(args, env, instr.args) == [Eval(args, env, instr.args[0]), Eval(args, env, instr.args[1]), Eval(args, env, instr.args[2])]
  {
  }

  /** The function returns at the end of its one block. */
  lemma {:induction false} SquareRuns(sem: Sem, args: seq<int>, n: nat)
    requires n > 0
    ensures var m := Run(SQUARE, sem, args, n);
            m.Returned? && m.val == Some(Eval(args, Steps(sem, args, Regs(map[], map[], [], true), [PLACE, CELL, STORE, FETCH, PRODUCT]).env, Res(14)))
    decreases n
  {
    hide Steps, Eval, SQUARE;
    SquareText();
    if n > 1 {
      SquareRuns(sem, args, n - 1);
    } else {
      assert Run(SQUARE, sem, args, 0) == Running(0, Regs(map[], map[], [], true));
    }
  }

  /** A call gives the square and leaves all memory as it was, from any memory. */
  lemma SquareReturns(fuel: nat, w: State, x: int)
    requires fuel > 0
    ensures CallOf(PROGRAM, 0, fuel, w, 7, [x]) == (x * x, w)
  {
    hide Run, SemAt, Steps, SQUARE, Describes, FramesOk, IsPure, Replay, Popped;
    ProgramFrames();
    SquareDescribed();
    SquarePure();
    QuietCall(PROGRAM, KNOWN, 0, fuel, w, 7, [x]);
    var sem := SemAt(PROGRAM, 1, fuel - 1, w);
    SquareRuns(sem, [x], fuel);
    SquareSteps(1, fuel - 1, w, x, Regs(map[], map[], [], true));
  }
}
