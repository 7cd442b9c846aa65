/** The renamed function, run side by side with the function in memory form. */
module Simulation {
  import opened Common
  import opened Cfg
  import opened IdomTree
  import opened DominatorAnalysis
  import opened Ir
  import opened Ssa
  import opened Renaming

  /** Before instruction i of b: every available register has the value of its
      replacement, and every written slot holds the value on top of its stack. */
  ghost predicate RegistersAgree(f: Func, nm: Naming, args: seq<int>, b: Block, i: int, r: Regs, r': Regs) {
    forall id | Available(f, id, b, i) :: id in r.env && Eval(args, r'.env, Apply(nm.subst, Res(id))) == r.env[id]
  }

  ghost predicate SlotsAgree(t: Tops, args: seq<int>, r: Regs, r': Regs) {
    forall x | x in r.slots :: x in t && Eval(args, r'.env, t[x]) == r.slots[x]
  }

  ghost predicate Related(f: Func, nm: Naming, args: seq<int>, b: Block, i: nat, r: Regs, r': Regs)
    requires b in f.phis && b in f.body && b in nm.start && i <= |f.body[b]|
  {
    r.clean ==>
      && r'.events == r.events
      && RegistersAgree(f, nm, args, b, i, r, r')
      && SlotsAgree(TopsAt(f, nm, b, i), args, r, r')
  }

  /** The standing assumptions, at a position of a reachable block. */
  ghost predicate At(f: Func, m: IdomMap, nm: Naming, b: Block, i: nat) {
    && RenamingInput(f, m, nm.slotOf) && Named(f, m, nm)
    && b in f.graph.blocks && Reachable(f.graph, b)
    && b in f.phis && b in f.body && b in nm.start && i <= |f.body[b]|
  }

  lemma OperandAgrees(f: Func, nm: Naming, args: seq<int>, b: Block, i: int, r: Regs, r': Regs, v: Val)
    requires RegistersAgree(f, nm, args, b, i, r, r')
    requires v.Res? ==> Available(f, v.id, b, i)
    ensures Eval(args, r'.env, Apply(nm.subst, v)) == Eval(args, r.env, v)
  {
  }

  lemma OperandsAgree(f: Func, nm: Naming, args: seq<int>, b: Block, i: int, r: Regs, r': Regs, vs: seq<Val>)
    requires RegistersAgree(f, nm, args, b, i, r, r')
    requires AllAvailable(f, vs, b, i)
    ensures EvalAll(args, r'.env, ApplyAll(nm.subst, vs)) == EvalAll(args, r.env, vs)
  {
    forall k | 0 <= k < |vs|
      ensures EvalAll(args, r'.env, ApplyAll(nm.subst, vs))[k] == EvalAll(args, r.env, vs)[k]
    {
      assert vs[k] in vs;
      OperandAgrees(f, nm, args, b, i, r, r', vs[k]);
    }
  }

  lemma UsesAvailable(f: Func, m: IdomMap, nm: Naming, b: Block, i: nat)
    requires At(f, m, nm, b, i)
    ensures i < |f.body[b]| ==> AllAvailable(f, Uses(f.body[b][i]), b, i)
    ensures i == |f.body[b]| && b in f.term ==> AllAvailable(f, TermUses(f.term[b]), b, i)
    ensures i < |f.body[b]| ==> LoadNamed(f, nm, b, i)
  {
    hide UniqueIds, PhisFresh, PhisClosed, IdomCorrect, WellFormed;
    assert BlockNamed(f, nm, b);
  }

  lemma NotAvailableAt(f: Func, id: Id, b: Block, i: nat)
    requires UniqueIds(f) && DefinedAt(f, id, b, i)
    ensures !Available(f, id, b, i)
  {
    forall c, j | DefinedAt(f, id, c, j) ensures !((c == b && j < i) || StrictlyDominates(f.graph, c, b)) {
    }
  }

  lemma NeverDefined(f: Func, id: Id, b: Block)
    requires forall c, j :: !DefinedAt(f, id, c, j) || c == b || !StrictlyDominates(f.graph, c, b)
    ensures !Available(f, id, b, 0)
  {
    forall c, j | DefinedAt(f, id, c, j) ensures !((c == b && j < 0) || StrictlyDominates(f.graph, c, b)) {
    }
  }

  /** What is in scope before an instruction is not what the instruction defines. */
  lemma NotYetDefined(f: Func, m: IdomMap, nm: Naming, v: Val, b: Block, i: nat, id: Id)
    requires At(f, m, nm, b, i)
    requires DefinedAt(f, id, b, i) && InScope(f, v, b, i)
    ensures v != Res(id)
  {
    hide PhisClosed, IdomCorrect, WellFormed, UsesDominated, Named;
    NotAvailableAt(f, id, b, i);
  }

  lemma AvailableNext(f: Func, b: Block, i: nat, id: Id)
    requires Available(f, id, b, i + 1) && !DefinedAt(f, id, b, i)
    ensures Available(f, id, b, i)
  {
    var c, j :| DefinedAt(f, id, c, j) && ((c == b && j < i + 1) || StrictlyDominates(f.graph, c, b));
    assert DefinedAt(f, id, c, j) && ((c == b && j < i) || StrictlyDominates(f.graph, c, b));
  }

  lemma TopsNext(f: Func, nm: Naming, b: Block, i: nat)
    requires b in f.phis && b in f.body && b in nm.start && i < |f.body[b]|
    ensures var instr := f.body[b][i];
            TopsAt(f, nm, b, i + 1) ==
            if instr.Store? then TopsAt(f, nm, b, i)[instr.slot := Apply(nm.subst, instr.rval)] else TopsAt(f, nm, b, i)
  {
    assert f.body[b][..i + 1][..i] == f.body[b][..i];
  }

  /** Defining id in both runs does not disturb what is related before it. */
  lemma DefineKeeps(f: Func, m: IdomMap, nm: Naming, args: seq<int>, b: Block, i: nat, r: Regs, r': Regs, id: Id, n: int)
    requires At(f, m, nm, b, i) && i < |f.body[b]| && DefinedAt(f, id, b, i)
    requires RegistersAgree(f, nm, args, b, i, r, r') && SlotsAgree(TopsAt(f, nm, b, i), args, r, r')
    ensures forall q | Available(f, q, b, i) ::
              q != id && q in r.env && Eval(args, r'.env[id := n], Apply(nm.subst, Res(q))) == r.env[q]
    ensures SlotsAgree(TopsAt(f, nm, b, i), args, r, r'.(env := r'.env[id := n]))
  {
    hide RenamingInput, Named, DefinedAt, Reachable;
    forall q | Available(f, q, b, i)
      ensures q != id && q in r.env && Eval(args, r'.env[id := n], Apply(nm.subst, Res(q))) == r.env[q]
    {
      assert InScope(f, Res(q), b, i);
      NotYetDefined(f, m, nm, Res(q), b, i, id);
      ReplacedInScope(f, m, nm, Res(q), b, i);
      NotYetDefined(f, m, nm, Apply(nm.subst, Res(q)), b, i, id);
    }
    var t := TopsAt(f, nm, b, i);
    forall x | x in r.slots ensures x in t && Eval(args, r'.env[id := n], t[x]) == r.slots[x] {
      TopsInScope(f, m, nm, b, i, x);
      NotYetDefined(f, m, nm, t[x], b, i, id);
    }
  }

  /** Two runs that define id, to values that agree, stay related. */
  lemma DefineSim(f: Func, m: IdomMap, nm: Naming, args: seq<int>, b: Block, i: nat, r: Regs, r': Regs, id: Id, n: int,
                  s: Regs, s': Regs)
    requires At(f, m, nm, b, i) && i < |f.body[b]| && Defines(f.body[b][i]) == Some(id)
    requires RegistersAgree(f, nm, args, b, i, r, r') && SlotsAgree(TopsAt(f, nm, b, i), args, r, r')
    requires s.slots == r.slots && id in s.env && s.env == r.env[id := s.env[id]]
    requires s'.env == r'.env[id := n] && Eval(args, s'.env, Apply(nm.subst, Res(id))) == s.env[id]
    ensures RegistersAgree(f, nm, args, b, i + 1, s, s') && SlotsAgree(TopsAt(f, nm, b, i + 1), args, s, s')
  {
    hide RenamingInput, Named, Reachable, Available;
    TopsNext(f, nm, b, i);
    DefineKeeps(f, m, nm, args, b, i, r, r', id, n);
    forall q | Available(f, q, b, i + 1) ensures q in s.env && Eval(args, s'.env, Apply(nm.subst, Res(q))) == s.env[q] {
      if q != id {
        assert !DefinedAt(f, q, b, i);
        AvailableNext(f, b, i, q);
      }
    }
  }

  /** The instruction of the renamed function that stands for instruction i of b, if any. */
  ghost function StepRenamed(nm: Naming, sem: Sem, args: seq<int>, r': Regs, instr: Instr): Regs {
    if instr.Store? then r' else Step(sem, args, r', ApplyInstr(nm.subst, instr))
  }

  lemma StoreSim(f: Func, m: IdomMap, nm: Naming, sem: Sem, args: seq<int>, b: Block, i: nat, r: Regs, r': Regs)
    requires At(f, m, nm, b, i) && i < |f.body[b]| && f.body[b][i].Store? && Related(f, nm, args, b, i, r, r')
    ensures Related(f, nm, args, b, i + 1, Step(sem, args, r, f.body[b][i]), r')
  {
    hide RenamingInput, Named, Reachable, Available;
    var instr := f.body[b][i];
    TopsNext(f, nm, b, i);
    if r.clean {
      UsesAvailable(f, m, nm, b, i);
      assert instr.rval in Uses(instr);
      OperandAgrees(f, nm, args, b, i, r, r', instr.rval);
      forall id | Available(f, id, b, i + 1) ensures id in r.env && Eval(args, r'.env, Apply(nm.subst, Res(id))) == r.env[id] {
        AvailableNext(f, b, i, id);
      }
    }
  }

  lemma LoadSim(f: Func, m: IdomMap, nm: Naming, sem: Sem, args: seq<int>, b: Block, i: nat, r: Regs, r': Regs)
    requires At(f, m, nm, b, i) && i < |f.body[b]| && f.body[b][i].Load? && Related(f, nm, args, b, i, r, r')
    ensures Related(f, nm, args, b, i + 1, Step(sem, args, r, f.body[b][i]), Step(sem, args, r', f.body[b][i]))
  {
    hide RenamingInput, Named, Reachable, Available;
    var id, x := f.body[b][i].id, f.body[b][i].slot;
    if r.clean && x in r.slots {
      var n := if x in r'.slots then r'.slots[x] else 0;
      UsesAvailable(f, m, nm, b, i);
      DefineKeeps(f, m, nm, args, b, i, r, r', id, n);
      DefineSim(f, m, nm, args, b, i, r, r', id, n,
                Step(sem, args, r, f.body[b][i]), Step(sem, args, r', f.body[b][i]));
    }
  }

  lemma OpSim(f: Func, m: IdomMap, nm: Naming, sem: Sem, args: seq<int>, b: Block, i: nat, r: Regs, r': Regs)
    requires At(f, m, nm, b, i) && i < |f.body[b]| && f.body[b][i].Op? && Related(f, nm, args, b, i, r, r')
    ensures Related(f, nm, args, b, i + 1, Step(sem, args, r, f.body[b][i]),
                    Step(sem, args, r', ApplyInstr(nm.subst, f.body[b][i])))
  {
    hide RenamingInput, Named, Reachable, Available;
    var instr := f.body[b][i];
    if r.clean {
      UsesAvailable(f, m, nm, b, i);
      OperandsAgree(f, nm, args, b, i, r, r', instr.args);
      OpNotReplaced(f, m, nm, b, i);
      var s := Step(sem, args, r, instr);
      DefineSim(f, m, nm, args, b, i, r, r', instr.id, s.env[instr.id], s, Step(sem, args, r', ApplyInstr(nm.subst, instr)));
    }
  }

  lemma OpNotReplaced(f: Func, m: IdomMap, nm: Naming, b: Block, i: nat)
    requires At(f, m, nm, b, i) && i < |f.body[b]| && f.body[b][i].Op?
    ensures f.body[b][i].id !in nm.subst
  {
    hide PhisClosed, PhisFresh, IdomCorrect, WellFormed, UsesDominated;
    var id := f.body[b][i].id;
    assert DefinedAt(f, id, b, i);
    forall c, j ensures !LoadAt(f, id, c, j) {
      assert LoadAt(f, id, c, j) ==> DefinedAt(f, id, c, j);
    }
  }

  lemma StepSim(f: Func, m: IdomMap, nm: Naming, sem: Sem, args: seq<int>, b: Block, i: nat, r: Regs, r': Regs)
    requires At(f, m, nm, b, i) && i < |f.body[b]| && Related(f, nm, args, b, i, r, r')
    ensures Related(f, nm, args, b, i + 1, Step(sem, args, r, f.body[b][i]), StepRenamed(nm, sem, args, r', f.body[b][i]))
  {
    hide RenamingInput, Named, Reachable, Related;
    match f.body[b][i]
    case Store(_, _) => StoreSim(f, m, nm, sem, args, b, i, r, r');
    case Load(_, _) => LoadSim(f, m, nm, sem, args, b, i, r, r');
    case Op(_, _, _) => OpSim(f, m, nm, sem, args, b, i, r, r');
  }

  lemma {:induction false} BodySim(f: Func, m: IdomMap, nm: Naming, sem: Sem, args: seq<int>, b: Block, i: nat, r: Regs, r': Regs)
    requires At(f, m, nm, b, i) && Related(f, nm, args, b, 0, r, r')
    ensures Related(f, nm, args, b, i, Steps(sem, args, r, f.body[b][..i]),
                    Steps(sem, args, r', FinalBody(nm.subst, f.body[b][..i])))
    decreases i
  {
    hide RenamingInput, Named, Reachable;
    if i > 0 {
      BodySim(f, m, nm, sem, args, b, i - 1, r, r');
      var s, s' := Steps(sem, args, r, f.body[b][..i - 1]), Steps(sem, args, r', FinalBody(nm.subst, f.body[b][..i - 1]));
      StepSim(f, m, nm, sem, args, b, i - 1, s, s');
      assert f.body[b][..i][..i - 1] == f.body[b][..i - 1];
      var fin, last := FinalBody(nm.subst, f.body[b][..i - 1]), ApplyInstr(nm.subst, f.body[b][i - 1]);
      assert (fin + [last])[..|fin|] == fin;
    }
  }

  // ----- edges -----

  ghost predicate SameTop(t: Tops, t': Tops, x: Slot) {
    (x in t <==> x in t') && (x in t ==> t[x] == t'[x])
  }

  lemma {:induction false} BodyTopsUntouched(s: Subst, t: Tops, instrs: seq<Instr>, x: Slot)
    requires forall i | 0 <= i < |instrs| && instrs[i].Store? :: instrs[i].slot != x
    ensures SameTop(BodyTops(s, t, instrs), t, x)
    decreases |instrs|
  {
    if instrs != [] {
      BodyTopsUntouched(s, t, instrs[..|instrs| - 1], x);
    }
  }

  lemma {:induction false} PhiTopsUntouched(slotOf: map<Id, Slot>, t: Tops, phis: seq<Phi>, x: Slot)
    requires forall k | 0 <= k < |phis| && phis[k].id in slotOf :: slotOf[phis[k].id] != x
    ensures SameTop(PhiTops(slotOf, t, phis), t, x)
    decreases |phis|
  {
    if phis != [] {
      PhiTopsUntouched(slotOf, t, phis[..|phis| - 1], x);
    }
  }

  lemma {:induction false} PhiTopsHit(slotOf: map<Id, Slot>, t: Tops, phis: seq<Phi>, k: nat)
    requires k < |phis| && phis[k].id in slotOf
    requires forall j | 0 <= j < |phis| && j != k && phis[j].id in slotOf :: slotOf[phis[j].id] != slotOf[phis[k].id]
    ensures var x := slotOf[phis[k].id]; x in PhiTops(slotOf, t, phis) && PhiTops(slotOf, t, phis)[x] == Res(phis[k].id)
    decreases |phis|
  {
    if k < |phis| - 1 {
      PhiTopsHit(slotOf, t, phis[..|phis| - 1], k);
    }
  }

  /** A block without stores and phis of x passes x's top through. */
  lemma BlockInherits(f: Func, m: IdomMap, nm: Naming, b: Block, x: Slot)
    requires At(f, m, nm, b, 0) && !StoresTo(f, b, x) && !HasPhi(f, nm.slotOf, b, x)
    ensures b in nm.end && SameTop(nm.end[b], nm.start[b], x)
  {
    hide RenamingInput, Reachable;
    assert BlockNamed(f, nm, b);
    assert f.body[b][..|f.body[b]|] == f.body[b];
    BodyTopsUntouched(nm.subst, PhiTops(nm.slotOf, nm.start[b], f.phis[b]), f.body[b], x);
    PhiTopsUntouched(nm.slotOf, nm.start[b], f.phis[b], x);
  }

  /** Tops pass down the dominator tree from a to p, if nothing between touches x. */
  lemma {:induction false} ChainInherits(f: Func, m: IdomMap, nm: Naming, a: Block, p: Block, x: Slot)
    requires At(f, m, nm, p, 0) && Dominates(f.graph, a, p)
    requires forall c | Dominates(f.graph, c, p) && !Dominates(f.graph, c, a) :: !StoresTo(f, c, x) && !HasPhi(f, nm.slotOf, c, x)
    ensures a in nm.end && p in nm.end && SameTop(nm.end[p], nm.end[a], x)
    decreases Depth(f.graph, p)
  {
    hide UniqueIds, UsesDominated, PhisFresh, PhisClosed, StoresTo, HasPhi;
    assert BlockNamed(f, nm, p);
    if a != p {
      EntryReachable(f.graph);
      DominatesReflexive(f.graph, p);
      if Dominates(f.graph, p, a) {
        DominatesAntisymmetric(f.graph, a, p);
      }
      BlockInherits(f, m, nm, p, x);
      var q := m[p].value;
      IdomStep(f.graph, q, p);
      DepthDecreases(f.graph, q, p);
      assert BlockNamed(f, nm, q);
      ChainInherits(f, m, nm, a, q, x);
    }
  }

  /** The one place where phi placement matters: into a block without a phi for x,
      all edges bring the same top of x. */
  lemma EdgeTops(f: Func, m: IdomMap, nm: Naming, p: Block, b: Block, x: Slot)
    requires At(f, m, nm, p, 0) && At(f, m, nm, b, 0) && Edge(f.graph, p, b)
    requires !HasPhi(f, nm.slotOf, b, x)
    ensures p in nm.end && SameTop(nm.end[p], nm.start[b], x)
  {
    hide UniqueIds, UsesDominated, PhisFresh, StoresTo, HasPhi, BlockNamed;
    var g := f.graph;
    assert b != g.entry;
    var a := m[b].value;
    assert IsIdom(g, a, b);
    DominatesPredecessor(g, a, p, b);
    forall c | Dominates(g, c, p) && !Dominates(g, c, a) ensures !StoresTo(f, c, x) && !HasPhi(f, nm.slotOf, c, x) {
      assert InFrontier(g, c, b) by {
        assert p in g.pre[b] && Dominates(g, c, p) && !StrictlyDominates(g, c, b);
      }
      DominatorReachable(g, c, p);
    }
    ChainInherits(f, m, nm, a, p, x);
  }

  lemma {:induction false} EnterPhisOther(args: seq<int>, env: map<Id, int>, phis: seq<Phi>, from: Block, v: Val)
    requires forall k | 0 <= k < |phis| :: v != Res(phis[k].id)
    ensures Eval(args, EnterPhis(args, env, phis, from), v) == Eval(args, env, v)
    decreases |phis|
  {
    if phis != [] {
      EnterPhisOther(args, env, phis[..|phis| - 1], from, v);
    }
  }

  lemma {:induction false} EnterPhisHit(args: seq<int>, env: map<Id, int>, phis: seq<Phi>, from: Block, k: nat, v: Val)
    requires k < |phis| && Incoming(phis[k].pairs, from) == Some(v)
    requires forall j | 0 <= j < |phis| && j != k :: phis[j].id != phis[k].id
    ensures Eval(args, EnterPhis(args, env, phis, from), Res(phis[k].id)) == Eval(args, env, v)
    decreases |phis|
  {
    if k < |phis| - 1 {
      EnterPhisHit(args, env, phis[..|phis| - 1], from, k, v);
    }
  }

  lemma {:induction false} EnterPhisEmpty(args: seq<int>, env: map<Id, int>, phis: seq<Phi>, from: Block)
    requires forall k | 0 <= k < |phis| :: phis[k].pairs == []
    ensures EnterPhis(args, env, phis, from) == env
    decreases |phis|
  {
    if phis != [] {
      EnterPhisEmpty(args, env, phis[..|phis| - 1], from);
    }
  }

  /** What is in scope before b's phis is none of them. */
  lemma NotOwnPhi(f: Func, m: IdomMap, nm: Naming, v: Val, b: Block, k: nat)
    requires At(f, m, nm, b, 0) && k < |f.phis[b]| && InScopeBefore(f, v, b)
    ensures v != Res(f.phis[b][k].id)
  {
    hide UniqueIds, UsesDominated, PhisClosed, Named, IdomCorrect, WellFormed;
    var id := f.phis[b][k].id;
    assert PhiAt(f, id, b, k);
    NeverDefined(f, id, b);
  }

  lemma AvailableBefore(f: Func, p: Block, b: Block, id: Id)
    requires Available(f, id, b, 0) && Edge(f.graph, p, b) && p in f.body
    ensures Available(f, id, p, |f.body[p]|)
    ensures exists c, j: nat :: DefinedAt(f, id, c, j) && StrictlyDominates(f.graph, c, b)
  {
    var c, j :| DefinedAt(f, id, c, j) && ((c == b && j < 0) || StrictlyDominates(f.graph, c, b));
    DominatesPredecessor(f.graph, c, p, b);
    assert DefinedAt(f, id, c, j) && ((c == p && j < |f.body[p]|) || StrictlyDominates(f.graph, c, p));
    assert j as nat == j;
  }

  /** The replacement of a register that is available at b does not involve b's phis. */
  lemma ReplacementBefore(f: Func, m: IdomMap, nm: Naming, b: Block, id: Id, p: Block)
    requires At(f, m, nm, b, 0) && Available(f, id, b, 0) && Edge(f.graph, p, b) && p in f.body
    ensures InScopeBefore(f, Apply(nm.subst, Res(id)), b)
  {
    hide UniqueIds, UsesDominated, PhisClosed, PhisFresh, IdomCorrect, Named;
    AvailableBefore(f, p, b, id);
    var c, j: nat :| DefinedAt(f, id, c, j) && StrictlyDominates(f.graph, c, b);
    DominatorReachable(f.graph, c, b);
    assert DefinedAt(f, id, c, j) && ((c == c && j < j + 1) || StrictlyDominates(f.graph, c, c));
    ReplacedInScope(f, m, nm, Res(id), c, j + 1);
    ScopeBelow(f, Apply(nm.subst, Res(id)), c, j + 1, b);
  }

  /** The phis of b in f': as in f, with the pairs filled in. */
  ghost predicate PhisRenamed(f: Func, nm: Naming, b: Block, phis: seq<Phi>)
    requires b in f.phis
  {
    && |phis| == |f.phis[b]|
    && forall k | 0 <= k < |phis| :: phis[k].id == f.phis[b][k].id && PairsMatch(f, nm, b, phis[k])
  }

  lemma EdgeRegisters(f: Func, m: IdomMap, nm: Naming, args: seq<int>, p: Block, b: Block, phis: seq<Phi>, r: Regs, r': Regs)
    requires At(f, m, nm, p, 0) && At(f, m, nm, b, 0) && Edge(f.graph, p, b) && PhisRenamed(f, nm, b, phis)
    requires RegistersAgree(f, nm, args, p, |f.body[p]|, r, r')
    ensures RegistersAgree(f, nm, args, b, 0, r, r'.(env := EnterPhis(args, r'.env, phis, p)))
  {
    hide RenamingInput, Named, Reachable, PairsMatch;
    forall id | Available(f, id, b, 0)
      ensures id in r.env && Eval(args, EnterPhis(args, r'.env, phis, p), Apply(nm.subst, Res(id))) == r.env[id]
    {
      AvailableBefore(f, p, b, id);
      ReplacementBefore(f, m, nm, b, id, p);
      forall k | 0 <= k < |phis| ensures Apply(nm.subst, Res(id)) != Res(phis[k].id) {
        NotOwnPhi(f, m, nm, Apply(nm.subst, Res(id)), b, k);
      }
      EnterPhisOther(args, r'.env, phis, p, Apply(nm.subst, Res(id)));
    }
  }

  lemma PhisDistinct(f: Func, m: IdomMap, nm: Naming, b: Block, k: nat)
    requires At(f, m, nm, b, 0) && k < |f.phis[b]|
    ensures f.phis[b][k].id in nm.slotOf && f.phis[b][k].pairs == []
    ensures forall j | 0 <= j < |f.phis[b]| && j != k ::
              f.phis[b][j].id != f.phis[b][k].id
              && (f.phis[b][j].id in nm.slotOf ==> nm.slotOf[f.phis[b][j].id] != nm.slotOf[f.phis[b][k].id])
  {
    hide UniqueIds, UsesDominated, PhisClosed, Named, IdomCorrect, WellFormed;
    assert PhiAt(f, f.phis[b][k].id, b, k);
    forall j | 0 <= j < |f.phis[b]| && j != k ensures f.phis[b][j].id != f.phis[b][k].id {
      assert PhiAt(f, f.phis[b][j].id, b, j);
    }
  }

  lemma EdgeSlot(f: Func, m: IdomMap, nm: Naming, args: seq<int>, p: Block, b: Block, phis: seq<Phi>, env: map<Id, int>, x: Slot)
    requires At(f, m, nm, p, 0) && At(f, m, nm, b, 0) && Edge(f.graph, p, b) && PhisRenamed(f, nm, b, phis)
    requires p in nm.end && x in nm.end[p]
    ensures var t := TopsAt(f, nm, b, 0);
            x in t && Eval(args, EnterPhis(args, env, phis, p), t[x]) == Eval(args, env, nm.end[p][x])
  {
    hide RenamingInput, Named, StoresTo;
    assert f.body[b][..0] == [];
    if HasPhi(f, nm.slotOf, b, x) {
      var k :| 0 <= k < |f.phis[b]| && f.phis[b][k].id in nm.slotOf && nm.slotOf[f.phis[b][k].id] == x;
      PhisDistinct(f, m, nm, b, k);
      PhiTopsHit(nm.slotOf, nm.start[b], f.phis[b], k);
      EnterPhisHit(args, env, phis, p, k, nm.end[p][x]);
    } else {
      EdgeTops(f, m, nm, p, b, x);
      if b in f.graph.blocks {
        PhiTopsUntouched(nm.slotOf, nm.start[b], f.phis[b], x);
      }
      StartInScope(f, m, nm, b, x);
      forall k | 0 <= k < |phis| ensures nm.start[b][x] != Res(phis[k].id) {
        NotOwnPhi(f, m, nm, nm.start[b][x], b, k);
      }
      EnterPhisOther(args, env, phis, p, nm.start[b][x]);
    }
  }

  /** Taking an edge keeps the runs related. */
  lemma EdgeSim(f: Func, m: IdomMap, nm: Naming, args: seq<int>, p: Block, b: Block, phis: seq<Phi>, r: Regs, r': Regs)
    requires At(f, m, nm, p, 0) && At(f, m, nm, b, 0) && Edge(f.graph, p, b) && PhisRenamed(f, nm, b, phis)
    requires Related(f, nm, args, p, |f.body[p]|, r, r')
    ensures Related(f, nm, args, b, 0, r.(env := EnterPhis(args, r.env, f.phis[b], p)), r'.(env := EnterPhis(args, r'.env, phis, p)))
  {
    hide RenamingInput, Reachable, PhisRenamed;
    forall k | 0 <= k < |f.phis[b]| ensures f.phis[b][k].pairs == [] {
      PhisDistinct(f, m, nm, b, k);
    }
    EnterPhisEmpty(args, r.env, f.phis[b], p);
    if r.clean {
      EdgeRegisters(f, m, nm, args, p, b, phis, r, r');
      assert BlockNamed(f, nm, p);
      forall x | x in r.slots
        ensures var t := TopsAt(f, nm, b, 0); x in t && Eval(args, EnterPhis(args, r'.env, phis, p), t[x]) == r.slots[x]
      {
        EdgeSlot(f, m, nm, args, p, b, phis, r'.env, x);
      }
    }
  }

  // ----- runs -----

  /** The two runs are at the start of the same reachable block, or have both returned. */
  ghost predicate RunsRelated(f: Func, m: IdomMap, nm: Naming, args: seq<int>, a: Machine, a': Machine) {
    a.regs.clean ==>
      && SameOutcome(a, a')
      && (a.Running? ==> At(f, m, nm, a.block, 0) && Related(f, nm, args, a.block, 0, a.regs, a'.regs))
  }

  lemma Position(f: Func, m: IdomMap, nm: Naming, b: Block, i: nat)
    requires RenamingInput(f, m, nm.slotOf) && Named(f, m, nm) && Reachable(f.graph, b)
    requires b in f.body ==> i <= |f.body[b]|
    ensures At(f, m, nm, b, i)
  {
    hide UniqueIds, UsesDominated, PhisClosed, PhisFresh, IdomCorrect;
    ReachableInBlocks(f.graph, b);
    assert BlockNamed(f, nm, b);
  }

  lemma StartSim(f: Func, f': Func, m: IdomMap, nm: Naming, args: seq<int>)
    requires RenamingInput(f, m, nm.slotOf) && Named(f, m, nm) && f'.graph == f.graph
    ensures RunsRelated(f, m, nm, args, Start(f), Start(f'))
  {
    hide RenamingInput, Named;
    EntryReachable(f.graph);
    var b := f.graph.entry;
    Position(f, m, nm, b, 0);
    forall id ensures !Available(f, id, b, 0) {
      NeverDefined(f, id, b);
    }
  }

  lemma RenamedBlock(f: Func, f': Func, m: IdomMap, nm: Naming, b: Block)
    requires At(f, m, nm, b, 0) && Renamed(f, f', nm)
    ensures b in f.term && b in f'.term && b in f'.body && b in f'.phis && f'.term[b] == ApplyTerm(nm.subst, f.term[b])
    ensures f'.body[b] == FinalBody(nm.subst, f.body[b]) && PhisRenamed(f, nm, b, f'.phis[b])
    ensures forall c | c in Targets(f.term[b]) :: Edge(f.graph, b, c)
  {
    hide UniqueIds, UsesDominated, PhisClosed, PhisFresh, IdomCorrect, Named, PairsMatch;
  }

  lemma JumpSim(f: Func, f': Func, m: IdomMap, nm: Naming, args: seq<int>, p: Block, b: Block, r: Regs, r': Regs)
    requires At(f, m, nm, p, 0) && Renamed(f, f', nm) && Edge(f.graph, p, b)
    requires Related(f, nm, args, p, |f.body[p]|, r, r')
    ensures RunsRelated(f, m, nm, args, Jump(f, args, r, p, b), Jump(f', args, r', p, b))
  {
    hide RenamingInput, Named, Renamed, Reachable, Edge, PhisRenamed;
    SuccReachable(f.graph, p, b);
    Position(f, m, nm, b, 0);
    RenamedBlock(f, f', m, nm, b);
    EdgeSim(f, m, nm, args, p, b, f'.phis[b], r, r');
  }

  lemma BlockSim(f: Func, f': Func, m: IdomMap, nm: Naming, sem: Sem, args: seq<int>, a: Machine, a': Machine)
    requires RenamingInput(f, m, nm.slotOf) && Named(f, m, nm) && Renamed(f, f', nm)
    requires RunsRelated(f, m, nm, args, a, a')
    requires RunBlock(f, sem, args, a).regs.clean
    ensures RunsRelated(f, m, nm, args, RunBlock(f, sem, args, a), RunBlock(f', sem, args, a'))
  {
    hide RenamingInput, Named, Renamed, Reachable, Edge, PhisRenamed;
    RunBlockClean(f, sem, args, a);
    if a.Running? {
      var b := a.block;
      RenamedBlock(f, f', m, nm, b);
      Position(f, m, nm, b, |f.body[b]|);
      BodySim(f, m, nm, sem, args, b, |f.body[b]|, a.regs, a'.regs);
      assert f.body[b][..|f.body[b]|] == f.body[b];
      var r, r' := Steps(sem, args, a.regs, f.body[b]), Steps(sem, args, a'.regs, f'.body[b]);
      UsesAvailable(f, m, nm, b, |f.body[b]|);
      forall v | v in TermUses(f.term[b]) ensures Eval(args, r'.env, Apply(nm.subst, v)) == Eval(args, r.env, v) {
        OperandAgrees(f, nm, args, b, |f.body[b]|, r, r', v);
      }
      match f.term[b] {
        case Br(c) =>
          JumpSim(f, f', m, nm, args, b, c, r, r');
        case CondBr(v, c, d) =>
          assert v in TermUses(f.term[b]);
          JumpSim(f, f', m, nm, args, b, if Eval(args, r.env, v) != 0 then c else d, r, r');
        case Ret(v) =>
          if v.Some? {
            assert v.value in TermUses(f.term[b]);
          }
      }
    }
  }

  lemma {:induction false} StepsClean(sem: Sem, args: seq<int>, r: Regs, instrs: seq<Instr>)
    ensures Steps(sem, args, r, instrs).clean ==> r.clean
    decreases |instrs|
  {
    if instrs != [] {
      StepsClean(sem, args, r, instrs[..|instrs| - 1]);
    }
  }

  /** Once unclean, a run stays unclean. */
  lemma RunBlockClean(f: Func, sem: Sem, args: seq<int>, a: Machine)
    ensures RunBlock(f, sem, args, a).regs.clean ==> a.regs.clean
    ensures RunBlock(f, sem, args, a).regs.clean && a.Running? && a.block in f.body && a.block in f.term ==>
              Steps(sem, args, a.regs, f.body[a.block]).clean
  {
    if a.Running? && a.block in f.body {
      StepsClean(sem, args, a.regs, f.body[a.block]);
    }
  }

  lemma {:induction false} RunSim(f: Func, f': Func, m: IdomMap, nm: Naming, sem: Sem, args: seq<int>, n: nat)
    requires RenamingInput(f, m, nm.slotOf) && Named(f, m, nm) && Renamed(f, f', nm)
    requires Run(f, sem, args, n).regs.clean
    ensures RunsRelated(f, m, nm, args, Run(f, sem, args, n), Run(f', sem, args, n))
    decreases n
  {
    hide RenamingInput, Named, RunsRelated;
    if n == 0 {
      StartSim(f, f', m, nm, args);
    } else {
      RunBlockClean(f, sem, args, Run(f, sem, args, n - 1));
      RunSim(f, f', m, nm, sem, args, n - 1);
      BlockSim(f, f', m, nm, sem, args, Run(f, sem, args, n - 1), Run(f', sem, args, n - 1));
    }
  }

  /** Renaming preserves meaning: the same events, the same control flow and the
      same result, for runs of any length that read no slot before writing it. */
  lemma RenamingRefines(f: Func, f': Func, m: IdomMap, nm: Naming)
    requires RenamingInput(f, m, nm.slotOf) && Named(f, m, nm) && Renamed(f, f', nm)
    ensures Refines(f, f')
  {
    hide RenamingInput, Named, Renamed;
    forall sem: Sem, args: seq<int>, n: nat | Run(f, sem, args, n).regs.clean
      ensures SameOutcome(Run(f, sem, args, n), Run(f', sem, args, n))
    {
      RunSim(f, f', m, nm, sem, args, n);
    }
  }

  ghost predicate PhisWithoutPairs(f: Func) {
    forall b, k | b in f.graph.blocks && b in f.phis && 0 <= k < |f.phis[b]| :: f.phis[b][k].pairs == []
  }

  /** Phis without pairs do nothing. */
  lemma {:induction false} EmptyPhisRun(f: Func, f': Func, sem: Sem, args: seq<int>, n: nat)
    requires WellFormedFunc(f) && WellFormedFunc(f') && PhisWithoutPairs(f) && PhisWithoutPairs(f')
    requires f'.graph == f.graph && f'.body == f.body && f'.term == f.term
    ensures Run(f', sem, args, n) == Run(f, sem, args, n)
    ensures Run(f, sem, args, n).Running? ==> Run(f, sem, args, n).block in f.graph.blocks
    decreases n
  {
    if n > 0 {
      EmptyPhisRun(f, f', sem, args, n - 1);
      var a := Run(f, sem, args, n - 1);
      if a.Running? {
        var r := Steps(sem, args, a.regs, f.body[a.block]);
        forall b | b in Targets(f.term[a.block])
          ensures b in f.graph.blocks && Jump(f', args, r, a.block, b) == Jump(f, args, r, a.block, b)
        {
          assert b in f.graph.succ[a.block];
          EnterPhisEmpty(args, r.env, f.phis[b], a.block);
          EnterPhisEmpty(args, r.env, f'.phis[b], a.block);
        }
      }
    }
  }
}
