/** What code motion may move at all: stores and calls that have effects keep their blocks and their order. */
module StoresStay {
  import opened Cfg
  import opened NaturalLoops
  import opened Ir
  import opened Hoisting
  import opened Preheaders
  import opened HoistedForm
  import opened InvariantLoops

  /** An operation that gives a value: from its operands, from memory, or by a call that does nothing else. */
  ghost predicate GivesValue(impure: bool, instr: Instr) {
    instr.Op? && (IsPureOp(instr.op) || instr.op.LoadPtr? || (instr.op.Call? && !impure))
  }

  /** Stores, and calls that may do more. */
  predicate HasEffect(impure: bool, instr: Instr) {
    instr.Store? || (instr.Op? && (instr.op.StorePtr? || (instr.op.Call? && impure)))
  }

  /** Everything but stores and calls that may do more can be moved. */
  lemma MovableExactly(impure: bool, instr: Instr)
    ensures Movable(impure, instr) <==> instr.Load? || GivesValue(impure, instr)
    ensures Movable(impure, instr) <==> !HasEffect(impure, instr)
  {
  }

  function Effects(impure: bool, instrs: seq<Instr>): seq<Instr> {
    if instrs == [] then []
    else
      var last := instrs[|instrs| - 1];
      Effects(impure, instrs[..|instrs| - 1]) + if HasEffect(impure, last) then [last] else []
  }

  /** Every block has the stores and calls that it had, and new blocks have none. */
  ghost predicate EffectsStay(impure: bool, f: Func, f': Func) {
    && (forall b | b in f.graph.blocks :: b in f'.graph.blocks && b in f.body && b in f'.body && Effects(impure, f'.body[b]) == Effects(impure, f.body[b]))
    && forall b | b in f'.graph.blocks && b !in f.graph.blocks :: b in f'.body && Effects(impure, f'.body[b]) == []
  }

  lemma {:induction false} EffectsWithout(impure: bool, moved: set<Id>, instrs: seq<Instr>)
    requires forall i | i in instrs && Leaves(moved, i) :: !HasEffect(impure, i)
    ensures Effects(impure, Without(moved, instrs)) == Effects(impure, instrs)
    decreases |instrs|
  {
    if instrs != [] {
      var init, last := instrs[..|instrs| - 1], instrs[|instrs| - 1];
      EffectsWithout(impure, moved, init);
      var rest := Without(moved, init);
      assert (rest + [last])[..|rest|] == rest && rest + [] == rest;
    }
  }

  lemma {:induction false} NoEffects(impure: bool, instrs: seq<Instr>)
    requires forall i | i in instrs :: !HasEffect(impure, i)
    ensures Effects(impure, instrs) == []
    decreases |instrs|
  {
    if instrs != [] {
      NoEffects(impure, instrs[..|instrs| - 1]);
    }
  }

  lemma EffectsSame(impure: bool, f: Func)
    requires WellFormedFunc(f)
    ensures EffectsStay(impure, f, f)
  {
  }

  lemma EffectsTransitive(impure: bool, f: Func, g: Func, h: Func)
    requires EffectsStay(impure, f, g) && EffectsStay(impure, g, h)
    ensures EffectsStay(impure, f, h)
  {
    hide Effects;
  }

  /** What leaves a block is one of the moved operations. */
  lemma LeavesMoved(f: Func, p: Plan, impure: bool, b: Block, instr: Instr)
    requires UniqueIds(f) && MovedOk(f, p) && AllMovable(impure, p.moved) && b in f.graph.blocks && b in f.body && instr in f.body[b] && Leaves(IdsOf(p.moved), instr)
    ensures !HasEffect(impure, instr)
  {
    hide InLoop, OperandsReady, Movable, HasEffect;
    var m :| m in p.moved && m.Op? && m.id == instr.id;
    var k :| 0 <= k < |p.moved| && p.moved[k] == m;
    assert OfLoop(f, p.header, p.moved[k]);
    var c, i :| InLoop(f.graph, p.header, c) && c in f.graph.blocks && c in f.body && 0 <= i < |f.body[c]| && f.body[c][i] == m;
    var j :| 0 <= j < |f.body[b]| && f.body[b][j] == instr;
    assert DefinedAt(f, m.id, c, i) && DefinedAt(f, m.id, b, j);
    MovableExactly(impure, m);
  }

  lemma EffectsMoved(f: Func, f': Func, p: Plan, impure: bool)
    requires Preheadered(f, f', p) && AllMovable(impure, p.moved)
    ensures EffectsStay(impure, f, f')
  {
    hide Hoistable, InLoop, OnlyEntry, EnteredOnce, LoopGraph, Movable, HasEffect, Without, Effects, UniqueIds, MovedOk, Leaves, WellFormed;
    SplitParts(f, f', p);
    PlanParts(f, p);
    forall b | b in f.graph.blocks ensures Effects(impure, f'.body[b]) == Effects(impure, f.body[b]) {
      forall i | i in f.body[b] && Leaves(IdsOf(p.moved), i) ensures !HasEffect(impure, i) {
        LeavesMoved(f, p, impure, b, i);
      }
      EffectsWithout(impure, IdsOf(p.moved), f.body[b]);
    }
    forall i | i in p.moved ensures !HasEffect(impure, i) {
      var k :| 0 <= k < |p.moved| && p.moved[k] == i;
      MovableExactly(impure, i);
    }
    NoEffects(impure, p.moved);
  }

  // ----- what is left in a loop -----

  /** Every operation of the loop that gives a value uses a value of the loop. */
  ghost predicate NothingLeft(f: Func, impure: bool, h: Block) {
    forall b, i | InLoop(f.graph, h, b) && b in f.graph.blocks && b in f.body && 0 <= i < |f.body[b]| && GivesValue(impure, f.body[b][i]) ::
      exists v :: v in Uses(f.body[b][i]) && v.Res? && DefinedInLoop(f, h, v.id)
  }

  lemma SettledNothingLeft(f: Func, impure: bool, h: Block)
    requires Settled(f, impure, h)
    ensures NothingLeft(f, impure, h)
  {
    hide InLoop, Movable, GivesValue, DefinedInLoop;
    forall b, i | InLoop(f.graph, h, b) && b in f.graph.blocks && b in f.body && 0 <= i < |f.body[b]| && GivesValue(impure, f.body[b][i])
      ensures UsesLoop(f, h, f.body[b][i])
    {
      MovableExactly(impure, f.body[b][i]);
    }
  }
}
