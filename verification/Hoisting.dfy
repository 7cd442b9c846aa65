/** Moving loop-invariant operations to a block in front of the loop: the function that comes
    out, and why it does what the function did. */
module Hoisting {
  import opened Common
  import opened Cfg
  import opened NaturalLoops
  import opened Ir
  import Marking

  // ----- which events count -----

  /** All events, or those that can be seen when these functions are pure. */
  type View = Option<Marking.Pures>

  /** The operation makes events that do not count. */
  predicate Unseen(view: View, op: Opcode) {
    view.Some? && !Marking.Seen(view.value, Event(op, []))
  }

  ghost predicate Alike(view: View, events: seq<Event>, events': seq<Event>) {
    match view
    case None => events' == events
    case Some(pure) => Marking.Visible(pure, events') == Marking.Visible(pure, events)
  }

  /** What loads and calls give depends on the events that count. */
  ghost predicate Honest(view: View, sem: Sem) {
    view.Some? ==> Marking.Transparent(sem, view.value)
  }

  lemma AlikeMore(view: View, events: seq<Event>, events': seq<Event>, e: Event)
    requires Alike(view, events, events')
    ensures Alike(view, events + [e], events' + [e])
    ensures Unseen(view, e.op) ==> Alike(view, events + [e], events') && Alike(view, events, events' + [e])
  {
    assert (events + [e])[..|events|] == events && (events' + [e])[..|events'|] == events';
    if view.Some? {
      assert Marking.Visible(view.value, events) + [] == Marking.Visible(view.value, events);
    }
  }

  lemma AlikeValue(view: View, sem: Sem, events: seq<Event>, events': seq<Event>, op: Opcode, vs: seq<int>)
    requires Honest(view, sem) && Alike(view, events, events')
    ensures sem.outside(events', op, vs) == sem.outside(events, op, vs)
  {
    hide Marking.Visible;
    if view.Some? {
      assert sem.outside(events, op, vs) == sem.outside(Marking.Visible(view.value, events), op, vs);
      assert sem.outside(events', op, vs) == sem.outside(Marking.Visible(view.value, events'), op, vs);
    }
  }

  // ----- what is moved -----

  /** Where a loop is entered, and the operations that are moved, in order. */
  datatype Plan = Plan(header: Block, outside: Block, preheader: Block, moved: seq<Instr>)

  function IdsOf(instrs: seq<Instr>): set<Id> {
    set i | i in instrs && i.Op? :: i.id
  }

  /** A value that a block of the loop defines. */
  ghost predicate DefinedInLoop(f: Func, h: Block, id: Id) {
    exists b, i :: InLoop(f.graph, h, b) && (DefinedAt(f, id, b, i) || PhiAt(f, id, b, i))
  }

  /** The operands are from outside the loop, or have been moved before. */
  ghost predicate OperandsReady(f: Func, h: Block, before: seq<Instr>, instr: Instr) {
    forall v | v in Uses(instr) && v.Res? :: v.id in IdsOf(before) || !DefinedInLoop(f, h, v.id)
  }

  /** The operation is one of a block of the loop. */
  ghost predicate OfLoop(f: Func, h: Block, instr: Instr) {
    exists b, i :: InLoop(f.graph, h, b) && b in f.graph.blocks && b in f.body && 0 <= i < |f.body[b]| && f.body[b][i] == instr
  }

  ghost predicate MovedOk(f: Func, p: Plan) {
    && (forall k | 0 <= k < |p.moved| ::
          p.moved[k].Op? && OperandsReady(f, p.header, p.moved[..k], p.moved[k]) && OfLoop(f, p.header, p.moved[k]))
    && (forall j, k | 0 <= j < k < |p.moved| :: p.moved[j].id != p.moved[k].id)
  }

  /** No operation of the loop makes an event that counts. */
  ghost predicate QuietLoop(view: View, f: Func, h: Block) {
    forall b, i | InLoop(f.graph, h, b) && b in f.graph.blocks && b in f.body && 0 <= i < |f.body[b]| && f.body[b][i].Op? ::
      IsPureOp(f.body[b][i].op) || Unseen(view, f.body[b][i].op)
  }

  ghost predicate OnlyPure(moved: seq<Instr>) {
    forall k | 0 <= k < |moved| && moved[k].Op? :: IsPureOp(moved[k].op)
  }

  /** Loads and calls are moved out of quiet loops only. */
  ghost predicate Quietly(view: View, f: Func, p: Plan) {
    OnlyPure(p.moved) || QuietLoop(view, f, p.header)
  }

  /** The loop is entered from one block only, which does nothing but branch to it. */
  ghost predicate EnteredOnce(f: Func, p: Plan) {
    && p.header in f.graph.blocks && p.outside in f.graph.blocks && IsHeader(f.graph, p.header) && p.header != f.graph.entry
    && !InLoop(f.graph, p.header, p.outside) && p.outside in f.term && f.term[p.outside] == Br(p.header)
    && (forall u | Edge(f.graph, u, p.header) :: u == p.outside || InLoop(f.graph, p.header, u))
    && p.preheader !in f.graph.blocks
  }

  /** Values are defined once, and the moved ones are available where they are used. */
  ghost predicate ValuesOk(f: Func, moved: set<Id>) {
    && UniqueIds(f)
    && (forall id, b, i | id in moved :: !PhiAt(f, id, b, i))
    && (forall b, i, v | b in f.graph.blocks && Reachable(f.graph, b) && b in f.body && 0 <= i < |f.body[b]| && v in Uses(f.body[b][i]) && v.Res? && v.id in moved ::
          Available(f, v.id, b, i))
    && (forall b, v | b in f.graph.blocks && Reachable(f.graph, b) && b in f.body && b in f.term && v in TermUses(f.term[b]) && v.Res? && v.id in moved ::
          Available(f, v.id, b, |f.body[b]|))
    && (forall b, k, u, v | Edge(f.graph, u, b) && Reachable(f.graph, u) && u in f.body && b in f.phis && 0 <= k < |f.phis[b]| && Incoming(f.phis[b][k].pairs, u) == Some(v)
          && v.Res? && v.id in moved :: Available(f, v.id, u, |f.body[u]|))
  }

  /** The pairs of the header's phis are for its predecessors. */
  ghost predicate PairsAtHeader(f: Func, p: Plan)
    requires p.header in f.phis
  {
    forall k, v, u | 0 <= k < |f.phis[p.header]| && (v, u) in f.phis[p.header][k].pairs :: u == p.outside || InLoop(f.graph, p.header, u)
  }

  ghost predicate Hoistable(f: Func, p: Plan) {
    && WellFormedFunc(f) && LoopGraph(f.graph) && EnteredOnce(f, p) && MovedOk(f, p) && ValuesOk(f, IdsOf(p.moved)) && PairsAtHeader(f, p)
  }

  // ----- the result -----

  function Without(moved: set<Id>, instrs: seq<Instr>): seq<Instr> {
    if instrs == [] then []
    else
      var last := instrs[|instrs| - 1];
      Without(moved, instrs[..|instrs| - 1]) + if last.Op? && last.id in moved then [] else [last]
  }

  /** Pairs for blocks outside the loop are for the preheader now. */
  ghost function Relabelled(f: Func, p: Plan, pairs: seq<(Val, Block)>): seq<(Val, Block)> {
    seq(|pairs|, i requires 0 <= i < |pairs| => if InLoop(f.graph, p.header, pairs[i].1) then pairs[i] else (pairs[i].0, p.preheader))
  }

  ghost predicate PhisMoved(f: Func, p: Plan, b: Block, phis: seq<Phi>, phis': seq<Phi>) {
    if b != p.header then phis' == phis
    else |phis'| == |phis| && forall k | 0 <= k < |phis| :: phis'[k] == Phi(phis[k].id, Relabelled(f, p, phis[k].pairs))
  }

  /** f' is f with a preheader. */
  ghost predicate Hoisted(f: Func, f': Func, p: Plan)
    requires WellFormedFunc(f)
  {
    && f'.graph.entry == f.graph.entry
    && p.preheader in f'.body && f'.body[p.preheader] == p.moved && p.preheader in f'.term && f'.term[p.preheader] == Br(p.header)
    && p.preheader in f'.phis && f'.phis[p.preheader] == []
    && forall b | b in f.graph.blocks ::
         && b in f'.body && f'.body[b] == Without(IdsOf(p.moved), f.body[b])
         && b in f'.term && f'.term[b] == (if b == p.outside then Br(p.preheader) else f.term[b])
         && b in f'.phis && PhisMoved(f, p, b, f.phis[b], f'.phis[b])
  }

  // ----- why -----

  ghost function Gives(sem: Sem, events: seq<Event>, op: Opcode, vs: seq<int>): int {
    if IsPureOp(op) then sem.pure(op, vs) else sem.outside(events, op, vs)
  }

  /** The moved values hold what their operations give, whenever the loop is being run. */
  ghost predicate Fixed(sem: Sem, args: seq<int>, moved: seq<Instr>, env: map<Id, int>, events: seq<Event>) {
    forall k | 0 <= k < |moved| && moved[k].Op? :: moved[k].id in env && env[moved[k].id] == Gives(sem, events, moved[k].op, EvalAll(args, env, moved[k].args))
  }

  /** They hold that also when an instruction of the loop has made an event. */
  lemma FixedLater(view: View, f: Func, p: Plan, sem: Sem, args: seq<int>, env: map<Id, int>, events: seq<Event>, e: Event)
    requires Honest(view, sem) && Fixed(sem, args, p.moved, env, events) && (OnlyPure(p.moved) || Unseen(view, e.op))
    ensures Fixed(sem, args, p.moved, env, events + [e])
  {
    hide Eval, Marking.Transparent, Marking.Visible;
    forall k | 0 <= k < |p.moved| && p.moved[k].Op? && !IsPureOp(p.moved[k].op)
      ensures Gives(sem, events + [e], p.moved[k].op, EvalAll(args, env, p.moved[k].args)) == Gives(sem, events, p.moved[k].op, EvalAll(args, env, p.moved[k].args))
    {
      AlikeRefl(view, events);
      AlikeMore(view, events, events, e);
      AlikeValue(view, sem, events, events + [e], p.moved[k].op, EvalAll(args, env, p.moved[k].args));
    }
  }

  lemma AlikeRefl(view: View, events: seq<Event>)
    ensures Alike(view, events, events)
  {
  }

  lemma AlikeTransitive(view: View, a: seq<Event>, b: seq<Event>, c: seq<Event>)
    requires Alike(view, a, b) && Alike(view, b, c)
    ensures Alike(view, a, c)
  {
  }

  /** An instruction of the loop makes no event that counts, unless only pure operations are moved. */
  lemma EventOfLoop(view: View, f: Func, p: Plan, b: Block, i: nat)
    requires Quietly(view, f, p) && InLoop(f.graph, p.header, b) && b in f.graph.blocks && b in f.body && i < |f.body[b]|
    requires f.body[b][i].Op? && !IsPureOp(f.body[b][i].op)
    ensures OnlyPure(p.moved) || Unseen(view, f.body[b][i].op)
  {
    hide InLoop, Unseen, IsPureOp;
  }

  /** What is moved is pure, or makes no event that counts. */
  lemma MovedUnseen(view: View, f: Func, p: Plan, k: nat)
    requires Quietly(view, f, p) && MovedOk(f, p) && k < |p.moved|
    ensures p.moved[k].Op? && (IsPureOp(p.moved[k].op) || Unseen(view, p.moved[k].op))
  {
    hide InLoop, OperandsReady, Unseen, IsPureOp;
    assert OfLoop(f, p.header, p.moved[k]);
  }

  ghost predicate SameAt(f: Func, moved: set<Id>, env: map<Id, int>, env': map<Id, int>, b: Block, i: int) {
    && (forall id | id !in moved :: (id in env <==> id in env') && (id in env ==> env'[id] == env[id]))
    && (forall id | id in moved && Available(f, id, b, i) :: id in env && id in env' && env'[id] == env[id])
  }

  /** Before instruction i of b: everything is the same, except that moved values may be known earlier. */
  ghost predicate Agrees(view: View, f: Func, p: Plan, sem: Sem, args: seq<int>, r: Regs, r': Regs, b: Block, i: int) {
    && r'.slots == r.slots && Alike(view, r.events, r'.events) && r'.clean == r.clean
    && SameAt(f, IdsOf(p.moved), r.env, r'.env, b, i)
    && (InLoop(f.graph, p.header, b) ==> Fixed(sem, args, p.moved, r'.env, r'.events))
  }

  lemma OperandAgrees(f: Func, moved: set<Id>, args: seq<int>, env: map<Id, int>, env': map<Id, int>, b: Block, i: int, v: Val)
    requires SameAt(f, moved, env, env', b, i) && (v.Res? && v.id in moved ==> Available(f, v.id, b, i))
    ensures Eval(args, env', v) == Eval(args, env, v)
  {
    hide Available;
  }

  lemma OperandsAgree(f: Func, moved: set<Id>, args: seq<int>, env: map<Id, int>, env': map<Id, int>, b: Block, i: int, vs: seq<Val>)
    requires SameAt(f, moved, env, env', b, i) && forall v | v in vs && v.Res? && v.id in moved :: Available(f, v.id, b, i)
    ensures EvalAll(args, env', vs) == EvalAll(args, env, vs)
  {
    hide Available, SameAt;
    forall k | 0 <= k < |vs| ensures Eval(args, env', vs[k]) == Eval(args, env, vs[k]) {
      OperandAgrees(f, moved, args, env, env', b, i, vs[k]);
    }
    assert EvalAll(args, env', vs) == EvalAll(args, env, vs);
  }

  /** One instruction more: what is available then was available before, or is what it defines. */
  lemma AvailableNext(f: Func, id: Id, b: Block, i: nat)
    requires UniqueIds(f) && b in f.graph.blocks && b in f.body && i < |f.body[b]| && Available(f, id, b, i + 1)
    ensures Available(f, id, b, i) || Defines(f.body[b][i]) == Some(id)
  {
    var c, j :| DefinedAt(f, id, c, j) && ((c == b && j < i + 1) || StrictlyDominates(f.graph, c, b));
    if !(c == b && j == i) {
      assert DefinedAt(f, id, c, j) && ((c == b && j < i) || StrictlyDominates(f.graph, c, b));
    }
  }

  /** A moved operation is one of the loop. */
  lemma MovedInLoop(f: Func, p: Plan, b: Block, i: nat) returns (k: nat)
    requires MovedOk(f, p) && UniqueIds(f) && b in f.graph.blocks && b in f.body && i < |f.body[b]|
    requires Defines(f.body[b][i]).Some? && Defines(f.body[b][i]).value in IdsOf(p.moved)
    ensures k < |p.moved| && p.moved[k] == f.body[b][i] && InLoop(f.graph, p.header, b)
  {
    hide InLoop, OperandsReady;
    var id := Defines(f.body[b][i]).value;
    var m :| m in p.moved && m.Op? && m.id == id;
    k :| 0 <= k < |p.moved| && p.moved[k] == m;
    assert OfLoop(f, p.header, p.moved[k]);
    var c, j :| InLoop(f.graph, p.header, c) && c in f.graph.blocks && c in f.body && 0 <= j < |f.body[c]| && f.body[c][j] == p.moved[k];
    assert DefinedAt(f, id, b, i) && DefinedAt(f, id, c, j);
  }

  /** What a block of the loop defines is no operand of what was moved, unless it was moved. */
  lemma NotMovedOperand(f: Func, p: Plan, k: nat, id: Id, v: Val)
    requires MovedOk(f, p) && k < |p.moved| && v in Uses(p.moved[k]) && v.Res? && DefinedInLoop(f, p.header, id) && id !in IdsOf(p.moved)
    ensures v.id != id
  {
    assert OperandsReady(f, p.header, p.moved[..k], p.moved[k]);
    if v.id in IdsOf(p.moved[..k]) {
      var m :| m in p.moved[..k] && m.Op? && m.id == v.id;
      assert m in p.moved;
    }
  }

  /** Defining another value of the loop leaves the moved ones as they are. */
  lemma FixedKept(f: Func, p: Plan, sem: Sem, args: seq<int>, env: map<Id, int>, events: seq<Event>, id: Id, x: int)
    requires MovedOk(f, p) && Fixed(sem, args, p.moved, env, events) && DefinedInLoop(f, p.header, id) && id !in IdsOf(p.moved)
    ensures Fixed(sem, args, p.moved, env[id := x], events)
  {
    hide DefinedInLoop, OperandsReady, InLoop, DefinedAt;
    forall k | 0 <= k < |p.moved| ensures p.moved[k].id in env[id := x] && env[id := x][p.moved[k].id] == Gives(sem, events, p.moved[k].op, EvalAll(args, env[id := x], p.moved[k].args)) {
      assert p.moved[k] in p.moved && p.moved[k].id != id;
      forall j | 0 <= j < |p.moved[k].args| ensures Eval(args, env[id := x], p.moved[k].args[j]) == Eval(args, env, p.moved[k].args[j]) {
        var v := p.moved[k].args[j];
        assert v in Uses(p.moved[k]);
        if v.Res? {
          NotMovedOperand(f, p, k, id, v);
        }
      }
      assert EvalAll(args, env[id := x], p.moved[k].args) == EvalAll(args, env, p.moved[k].args);
    }
  }

  // ----- one instruction -----

  /** A moved operation in its old place gives the value that is known already. */
  lemma MovedStep(view: View, f: Func, p: Plan, sem: Sem, args: seq<int>, r: Regs, r': Regs, b: Block, i: nat)
    requires Hoistable(f, p) && Quietly(view, f, p) && Honest(view, sem) && b in f.graph.blocks && Reachable(f.graph, b) && i < |f.body[b]|
    requires f.body[b][i].Op? && f.body[b][i].id in IdsOf(p.moved) && Agrees(view, f, p, sem, args, r, r', b, i)
    ensures Agrees(view, f, p, sem, args, Step(sem, args, r, f.body[b][i]), r', b, i + 1)
  {
    hide InLoop, Available, DefinedAt, Reachable, WellFormed, PairsAtHeader, EnteredOnce, LoopGraph, Honest, Alike, Quietly, Unseen;
    var instr := f.body[b][i];
    var k := MovedInLoop(f, p, b, i);
    OperandsAgree(f, IdsOf(p.moved), args, r.env, r'.env, b, i, instr.args);
    var ops := EvalAll(args, r.env, instr.args);
    MovedUnseen(view, f, p, k);
    if !IsPureOp(instr.op) {
      AlikeValue(view, sem, r.events, r'.events, instr.op, ops);
      AlikeMore(view, r.events, r'.events, Event(instr.op, ops));
    }
    assert r'.env[instr.id] == Gives(sem, r.events, instr.op, ops);
    var next := Step(sem, args, r, instr);
    assert next.env == r.env[instr.id := r'.env[instr.id]];
    forall id | id in IdsOf(p.moved) && Available(f, id, b, i + 1) ensures id in next.env && id in r'.env && r'.env[id] == next.env[id] {
      AvailableNext(f, id, b, i);
    }
  }

  lemma DefinedHere(f: Func, h: Block, b: Block, i: nat)
    requires InLoop(f.graph, h, b) && b in f.graph.blocks && b in f.body && i < |f.body[b]| && Defines(f.body[b][i]).Some?
    ensures DefinedInLoop(f, h, Defines(f.body[b][i]).value)
  {
    assert DefinedAt(f, Defines(f.body[b][i]).value, b, i);
  }

  /** With the same operands, an instruction does the same. */
  lemma SameStep(view: View, sem: Sem, args: seq<int>, r: Regs, r': Regs, instr: Instr)
    requires Honest(view, sem) && r'.slots == r.slots && Alike(view, r.events, r'.events) && r'.clean == r.clean
    requires forall v | v in Uses(instr) :: Eval(args, r'.env, v) == Eval(args, r.env, v)
    ensures var next, next' := Step(sem, args, r, instr), Step(sem, args, r', instr);
            && next'.slots == next.slots && Alike(view, next.events, next'.events) && next'.clean == next.clean
            && (next'.events == r'.events || (instr.Op? && !IsPureOp(instr.op) && next'.events == r'.events + [Event(instr.op, EvalAll(args, r'.env, instr.args))]))
            && match Defines(instr)
               case None => next.env == r.env && next'.env == r'.env
               case Some(id) => id in next.env && next.env == r.env[id := next.env[id]] && next'.env == r'.env[id := next.env[id]]
  {
    hide Eval, Alike, Honest;
    if instr.Op? {
      var ops := EvalAll(args, r.env, instr.args);
      assert EvalAll(args, r'.env, instr.args) == ops;
      AlikeValue(view, sem, r.events, r'.events, instr.op, ops);
      AlikeMore(view, r.events, r'.events, Event(instr.op, ops));
    }
  }

  /** A new value that is not a moved one. */
  lemma SameAtNext(f: Func, p: Plan, env: map<Id, int>, env': map<Id, int>, b: Block, i: nat, id: Id, x: int)
    requires UniqueIds(f) && b in f.graph.blocks && b in f.body && i < |f.body[b]| && Defines(f.body[b][i]) == Some(id) && id !in IdsOf(p.moved)
    requires SameAt(f, IdsOf(p.moved), env, env', b, i)
    ensures SameAt(f, IdsOf(p.moved), env[id := x], env'[id := x], b, i + 1)
  {
    hide Available, IdsOf;
    forall q | q in IdsOf(p.moved) && Available(f, q, b, i + 1) ensures Available(f, q, b, i) {
      AvailableNext(f, q, b, i);
    }
  }

  lemma SameAtSkip(f: Func, p: Plan, env: map<Id, int>, env': map<Id, int>, b: Block, i: nat)
    requires UniqueIds(f) && b in f.graph.blocks && b in f.body && i < |f.body[b]| && Defines(f.body[b][i]) == None
    requires SameAt(f, IdsOf(p.moved), env, env', b, i)
    ensures SameAt(f, IdsOf(p.moved), env, env', b, i + 1)
  {
    hide Available, IdsOf;
    forall q | q in IdsOf(p.moved) && Available(f, q, b, i + 1) ensures Available(f, q, b, i) {
      AvailableNext(f, q, b, i);
    }
  }

  /** An instruction that stays does the same in both functions. */
  lemma OtherStep(view: View, f: Func, p: Plan, sem: Sem, args: seq<int>, r: Regs, r': Regs, b: Block, i: nat)
    requires Hoistable(f, p) && Quietly(view, f, p) && Honest(view, sem) && b in f.graph.blocks && Reachable(f.graph, b) && i < |f.body[b]|
    requires Defines(f.body[b][i]).Some? ==> Defines(f.body[b][i]).value !in IdsOf(p.moved)
    requires Agrees(view, f, p, sem, args, r, r', b, i)
    ensures Agrees(view, f, p, sem, args, Step(sem, args, r, f.body[b][i]), Step(sem, args, r', f.body[b][i]), b, i + 1)
  {
    hide InLoop, Available, DefinedAt, Reachable, WellFormed, PairsAtHeader, EnteredOnce, LoopGraph, DefinedInLoop, MovedOk, Fixed, Step, SameAt, IdsOf, Honest, Alike,
      Quietly;
    var instr := f.body[b][i];
    var next, next' := Step(sem, args, r, instr), Step(sem, args, r', instr);
    forall v | v in Uses(instr) ensures Eval(args, r'.env, v) == Eval(args, r.env, v) {
      OperandAgrees(f, IdsOf(p.moved), args, r.env, r'.env, b, i, v);
    }
    SameStep(view, sem, args, r, r', instr);
    match Defines(instr)
    case None => SameAtSkip(f, p, r.env, r'.env, b, i);
    case Some(id) => SameAtNext(f, p, r.env, r'.env, b, i, id, next.env[id]);
    if InLoop(f.graph, p.header, b) {
      StepFixed(view, f, p, sem, args, r', next', b, i);
    }
  }

  /** In the loop the moved values stay what their operations give. */
  lemma StepFixed(view: View, f: Func, p: Plan, sem: Sem, args: seq<int>, r: Regs, next: Regs, b: Block, i: nat)
    requires MovedOk(f, p) && Quietly(view, f, p) && Honest(view, sem) && InLoop(f.graph, p.header, b) && b in f.graph.blocks && b in f.body && i < |f.body[b]|
    requires Defines(f.body[b][i]).Some? ==> Defines(f.body[b][i]).value !in IdsOf(p.moved)
    requires Fixed(sem, args, p.moved, r.env, r.events)
    requires var instr := f.body[b][i];
             && (next.events == r.events || (instr.Op? && !IsPureOp(instr.op) && next.events == r.events + [Event(instr.op, EvalAll(args, r.env, instr.args))]))
             && match Defines(instr) case None => next.env == r.env case Some(id) => id in next.env && next.env == r.env[id := next.env[id]]
    ensures Fixed(sem, args, p.moved, next.env, next.events)
  {
    hide InLoop, DefinedInLoop, MovedOk, Fixed, IdsOf, Honest, Quietly;
    var instr := f.body[b][i];
    if next.events != r.events {
      EventOfLoop(view, f, p, b, i);
      FixedLater(view, f, p, sem, args, r.env, r.events, Event(instr.op, EvalAll(args, r.env, instr.args)));
    }
    if Defines(instr).Some? {
      DefinedHere(f, p.header, b, i);
      FixedKept(f, p, sem, args, r.env, next.events, Defines(instr).value, next.env[Defines(instr).value]);
    }
  }

  /** Only moved operations define moved values. */
  lemma OthersDefine(f: Func, p: Plan, b: Block, i: nat)
    requires MovedOk(f, p) && UniqueIds(f) && b in f.graph.blocks && b in f.body && i < |f.body[b]|
    requires !(f.body[b][i].Op? && f.body[b][i].id in IdsOf(p.moved)) && Defines(f.body[b][i]).Some?
    ensures Defines(f.body[b][i]).value !in IdsOf(p.moved)
  {
    var id := Defines(f.body[b][i]).value;
    assert DefinedAt(f, id, b, i);
    if id in IdsOf(p.moved) {
      var k := MovedInLoop(f, p, b, i);
    }
  }

  lemma {:induction false} BodyAgrees(view: View, f: Func, p: Plan, sem: Sem, args: seq<int>, r: Regs, r': Regs, b: Block, k: nat)
    requires Hoistable(f, p) && Quietly(view, f, p) && Honest(view, sem) && b in f.graph.blocks && Reachable(f.graph, b) && b in f.body && k <= |f.body[b]| && Agrees(view, f, p, sem, args, r, r', b, 0)
    ensures Agrees(view, f, p, sem, args, Steps(sem, args, r, f.body[b][..k]), Steps(sem, args, r', Without(IdsOf(p.moved), f.body[b][..k])), b, k)
    decreases k
  {
    hide Agrees, Reachable, InLoop, LoopGraph, EnteredOnce, PairsAtHeader, Step, IdsOf;
    var instrs, moved := f.body[b], IdsOf(p.moved);
    if k > 0 {
      BodyAgrees(view, f, p, sem, args, r, r', b, k - 1);
      var s, instr := instrs[..k], instrs[k - 1];
      assert s[..|s| - 1] == instrs[..k - 1] && s[|s| - 1] == instr;
      var before, before' := Steps(sem, args, r, instrs[..k - 1]), Without(moved, instrs[..k - 1]);
      if instr.Op? && instr.id in moved {
        MovedStep(view, f, p, sem, args, before, Steps(sem, args, r', before'), b, k - 1);
        assert before' + [] == before';
      } else {
        if Defines(instr).Some? {
          OthersDefine(f, p, b, k - 1);
        }
        OtherStep(view, f, p, sem, args, before, Steps(sem, args, r', before'), b, k - 1);
        assert (before' + [instr])[..|before' + [instr]| - 1] == before';
      }
    }
  }

  // ----- the preheader -----

  lemma {:induction false} MovedRun(view: View, f: Func, p: Plan, sem: Sem, args: seq<int>, r: Regs, k: nat)
    requires MovedOk(f, p) && Quietly(view, f, p) && Honest(view, sem) && k <= |p.moved|
    ensures var r' := Steps(sem, args, r, p.moved[..k]);
            && r'.slots == r.slots && Alike(view, r.events, r'.events) && r'.clean == r.clean && Fixed(sem, args, p.moved[..k], r'.env, r'.events)
            && forall id | id !in IdsOf(p.moved[..k]) :: (id in r'.env <==> id in r.env) && (id in r.env ==> r'.env[id] == r.env[id])
    decreases k
  {
    hide InLoop, DefinedAt, DefinedInLoop, Alike, Honest, Quietly, Fixed, OperandsReady;
    if k == 0 {
      AlikeRefl(view, r.events);
      assert p.moved[..0] == [];
      FixedNone(sem, args, r.env, r.events);
    } else {
      MovedRun(view, f, p, sem, args, r, k - 1);
      var s, instr := p.moved[..k], p.moved[k - 1];
      assert s[..|s| - 1] == p.moved[..k - 1] && s[|s| - 1] == instr;
      var before := Steps(sem, args, r, p.moved[..k - 1]);
      assert instr in s;
      PreheaderStep(view, f, p, sem, args, r, before, k - 1);
      assert forall id :: id in IdsOf(p.moved[..k - 1]) ==> id in IdsOf(s);
    }
  }

  lemma FixedNone(sem: Sem, args: seq<int>, env: map<Id, int>, events: seq<Event>)
    ensures Fixed(sem, args, [], env, events)
  {
  }

  /** One more operation in the preheader. */
  lemma PreheaderStep(view: View, f: Func, p: Plan, sem: Sem, args: seq<int>, start: Regs, r: Regs, k: nat)
    requires MovedOk(f, p) && Quietly(view, f, p) && Honest(view, sem) && k < |p.moved|
    requires Alike(view, start.events, r.events) && Fixed(sem, args, p.moved[..k], r.env, r.events)
    ensures p.moved[k].Op?
    ensures var next := Step(sem, args, r, p.moved[k]);
            && next.slots == r.slots && Alike(view, start.events, next.events) && next.clean == r.clean && Fixed(sem, args, p.moved[..k + 1], next.env, next.events)
            && p.moved[k].id in next.env && next.env == r.env[p.moved[k].id := next.env[p.moved[k].id]]
  {
    hide InLoop, DefinedAt, DefinedInLoop, OperandsReady, Alike, Honest, Quietly, Fixed, Unseen;
    var instr := p.moved[k];
    MovedUnseen(view, f, p, k);
    var ops := EvalAll(args, r.env, instr.args);
    var e := Event(instr.op, ops);
    if IsPureOp(instr.op) {
      OneMoreFixed(f, p, sem, args, r.env, r.events, k, sem.pure(instr.op, ops));
    } else {
      AlikeMore(view, start.events, r.events, e);
      AlikeRefl(view, r.events);
      AlikeMore(view, r.events, r.events, e);
      AlikeValue(view, sem, r.events, r.events + [e], instr.op, ops);
      FixedWith(view, sem, args, p.moved[..k], r.env, r.events, r.events + [e]);
      OneMoreFixed(f, p, sem, args, r.env, r.events + [e], k, sem.outside(r.events, instr.op, ops));
    }
  }

  lemma FixedWith(view: View, sem: Sem, args: seq<int>, moved: seq<Instr>, env: map<Id, int>, events: seq<Event>, events': seq<Event>)
    requires Honest(view, sem) && Alike(view, events, events') && Fixed(sem, args, moved, env, events)
    ensures Fixed(sem, args, moved, env, events')
  {
    hide Alike, Honest;
    forall k | 0 <= k < |moved| && moved[k].Op?
      ensures Gives(sem, events', moved[k].op, EvalAll(args, env, moved[k].args)) == Gives(sem, events, moved[k].op, EvalAll(args, env, moved[k].args))
    {
      AlikeValue(view, sem, events, events', moved[k].op, EvalAll(args, env, moved[k].args));
    }
  }

  /** What was moved earlier does not use what is moved now. */
  lemma OneMoreFixed(f: Func, p: Plan, sem: Sem, args: seq<int>, env: map<Id, int>, events: seq<Event>, k: nat, x: int)
    requires MovedOk(f, p) && k < |p.moved| && Fixed(sem, args, p.moved[..k], env, events) && x == Gives(sem, events, p.moved[k].op, EvalAll(args, env, p.moved[k].args))
    ensures Fixed(sem, args, p.moved[..k + 1], env[p.moved[k].id := x], events)
  {
    hide InLoop, DefinedInLoop, DefinedAt;
    var id := p.moved[k].id;
    var env' := env[id := x];
    InLoopItself(f, p, k);
    forall j | 0 <= j <= k ensures p.moved[j].id in env' && env'[p.moved[j].id] == Gives(sem, events, p.moved[j].op, EvalAll(args, env', p.moved[j].args)) {
      assert j < k ==> p.moved[..k][j] == p.moved[j];
      forall i | 0 <= i < |p.moved[j].args| ensures Eval(args, env', p.moved[j].args[i]) == Eval(args, env, p.moved[j].args[i]) {
        assert p.moved[j].args[i] in Uses(p.moved[j]);
        NotYetUsed(f, p, j, k, p.moved[j].args[i]);
      }
      assert EvalAll(args, env', p.moved[j].args) == EvalAll(args, env, p.moved[j].args);
    }
    assert forall j | 0 <= j <= k :: p.moved[..k + 1][j] == p.moved[j];
  }

  lemma InLoopItself(f: Func, p: Plan, k: nat)
    requires MovedOk(f, p) && k < |p.moved|
    ensures DefinedInLoop(f, p.header, p.moved[k].id)
  {
    hide InLoop, OperandsReady;
    var instr := p.moved[k];
    assert instr.Op? && OfLoop(f, p.header, instr);
    var b, i :| InLoop(f.graph, p.header, b) && b in f.graph.blocks && b in f.body && 0 <= i < |f.body[b]| && f.body[b][i] == instr;
    assert DefinedAt(f, instr.id, b, i);
  }

  lemma NotYetUsed(f: Func, p: Plan, j: nat, k: nat, v: Val)
    requires MovedOk(f, p) && j <= k < |p.moved| && v in Uses(p.moved[j])
    ensures v != Res(p.moved[k].id)
  {
    hide InLoop, DefinedInLoop, DefinedAt;
    InLoopItself(f, p, k);
    assert OperandsReady(f, p.header, p.moved[..j], p.moved[j]);
    if v.Res? && v.id in IdsOf(p.moved[..j]) {
      var m :| m in p.moved[..j] && m.Op? && m.id == v.id;
      var q :| 0 <= q < j && p.moved[..j][q] == m;
      assert p.moved[q].id == v.id;
    }
  }

  // ----- edges -----

  /** On an edge, what is available behind it was available before it. */
  lemma AvailableBefore(f: Func, id: Id, u: Block, t: Block)
    requires Edge(f.graph, u, t) && u in f.body && Available(f, id, t, 0)
    ensures Available(f, id, u, |f.body[u]|)
  {
    var c, j :| DefinedAt(f, id, c, j) && ((c == t && j < 0) || StrictlyDominates(f.graph, c, t));
    DominatesPredecessor(f.graph, c, u, t);
    assert DefinedAt(f, id, c, j) && ((c == u && j < |f.body[u]|) || StrictlyDominates(f.graph, c, u));
  }

  /** No moved value is available outside in front of the loop, or at its head. */
  lemma NotAvailableBefore(f: Func, p: Plan, id: Id)
    requires Hoistable(f, p) && id in IdsOf(p.moved) && Reachable(f.graph, p.outside)
    ensures !Available(f, id, p.outside, |f.body[p.outside]|) && !Available(f, id, p.header, 0)
  {
    hide Available, WellFormed, PairsAtHeader;
    EdgeIn(f, p);
    if Available(f, id, p.outside, |f.body[p.outside]|) {
      MovedAvailable(f, p, id, p.outside, |f.body[p.outside]|);
      assert IsLatch(f.graph, p.header, p.outside);
      LatchInLoop(f.graph, p.header, p.outside);
    }
    if Available(f, id, p.header, 0) {
      AvailableBefore(f, id, p.outside, p.header);
    }
  }

  lemma EdgeIn(f: Func, p: Plan)
    requires Hoistable(f, p) && Reachable(f.graph, p.outside)
    ensures Edge(f.graph, p.outside, p.header) && Reachable(f.graph, p.header)
  {
    assert f.graph.succ[p.outside] == [p.header];
    assert p.header in f.graph.succ[p.outside];
    SuccReachable(f.graph, p.outside, p.header);
  }

  /** Where a moved value is available, the header of the loop dominates. */
  lemma MovedAvailable(f: Func, p: Plan, id: Id, b: Block, i: nat)
    requires Hoistable(f, p) && id in IdsOf(p.moved) && Available(f, id, b, i)
    ensures Dominates(f.graph, p.header, b)
  {
    hide WellFormed, PairsAtHeader, InLoop, EnteredOnce;
    var c, j :| DefinedAt(f, id, c, j) && ((c == b && j < i) || StrictlyDominates(f.graph, c, b));
    var k := MovedInLoop(f, p, c, j);
    LoopDominated(f.graph, p.header, c);
    if c != b {
      DominatesTransitive(f.graph, p.header, c, b);
    }
  }

  lemma {:induction false} PhisSame(f: Func, args: seq<int>, moved: set<Id>, env: map<Id, int>, env': map<Id, int>, phis: seq<Phi>, phis': seq<Phi>, u: Block, u': Block)
    requires |phis'| == |phis| && (forall id | id !in moved :: (id in env <==> id in env') && (id in env ==> env'[id] == env[id]))
    requires forall k | 0 <= k < |phis| ::
               phis'[k].id == phis[k].id && phis[k].id !in moved && PairSame(args, env, env', Incoming(phis[k].pairs, u), Incoming(phis'[k].pairs, u'))
    ensures var a, b := EnterPhis(args, env, phis, u), EnterPhis(args, env', phis', u');
            && (forall id | id !in moved :: (id in a <==> id in b) && (id in a ==> b[id] == a[id]))
            && forall id | id in moved :: (id in a <==> id in env) && (id in a ==> a[id] == env[id]) && (id in b <==> id in env') && (id in b ==> b[id] == env'[id])
    decreases |phis|
  {
    if phis != [] {
      var n := |phis| - 1;
      PhisSame(f, args, moved, env, env', phis[..n], phis'[..n], u, u');
    }
  }

  ghost predicate PairSame(args: seq<int>, env: map<Id, int>, env': map<Id, int>, v: Option<Val>, v': Option<Val>) {
    (v.Some? <==> v'.Some?) && (v.Some? ==> v'.value == v.value && Eval(args, env', v.value) == Eval(args, env, v.value))
  }

  /** The relabelled pairs give the same operand on each edge. */
  lemma {:induction false} RelabelledIncoming(f: Func, p: Plan, pairs: seq<(Val, Block)>, u: Block)
    requires forall i | 0 <= i < |pairs| :: pairs[i].1 == p.outside || InLoop(f.graph, p.header, pairs[i].1)
    requires !InLoop(f.graph, p.header, p.outside) && !InLoop(f.graph, p.header, p.preheader)
    ensures InLoop(f.graph, p.header, u) ==> Incoming(Relabelled(f, p, pairs), u) == Incoming(pairs, u)
    ensures Incoming(Relabelled(f, p, pairs), p.preheader) == Incoming(pairs, p.outside)
  {
    hide InLoop;
    if pairs != [] {
      assert Relabelled(f, p, pairs)[1..] == Relabelled(f, p, pairs[1..]);
      RelabelledIncoming(f, p, pairs[1..], u);
    }
  }

  /** Phis of loop blocks define values of the loop. */
  lemma {:induction false} FixedPhis(f: Func, p: Plan, sem: Sem, args: seq<int>, env: map<Id, int>, events: seq<Event>, t: Block, phis: seq<Phi>, from: Block, k: nat)
    requires MovedOk(f, p) && Fixed(sem, args, p.moved, env, events) && InLoop(f.graph, p.header, t) && t in f.graph.blocks && t in f.phis
    requires |phis| == |f.phis[t]| && k <= |phis| && forall j | 0 <= j < |phis| :: phis[j].id == f.phis[t][j].id && phis[j].id !in IdsOf(p.moved)
    ensures Fixed(sem, args, p.moved, EnterPhis(args, env, phis[..k], from), events)
    decreases k
  {
    hide InLoop, Fixed, MovedOk, IdsOf;
    if k > 0 {
      FixedPhis(f, p, sem, args, env, events, t, phis, from, k - 1);
      var s, phi := phis[..k], phis[k - 1];
      assert s[..|s| - 1] == phis[..k - 1] && s[|s| - 1] == phi;
      assert PhiAt(f, phi.id, t, k - 1);
      var e := EnterPhis(args, env, phis[..k - 1], from);
      match Incoming(phi.pairs, from)
      case None =>
      case Some(v) => FixedKept(f, p, sem, args, e, events, phi.id, Eval(args, env, v));
    }
  }

  /** On an edge that stays, the phis get the same values. */
  lemma PairsSame(f: Func, f': Func, p: Plan, args: seq<int>, env: map<Id, int>, env': map<Id, int>, u: Block, t: Block, k: nat)
    requires Hoistable(f, p) && Hoisted(f, f', p) && Edge(f.graph, u, t) && Reachable(f.graph, u) && u != p.outside
    requires t in f.graph.blocks && u in f.body && SameAt(f, IdsOf(p.moved), env, env', u, |f.body[u]|) && k < |f.phis[t]| && |f'.phis[t]| == |f.phis[t]|
    ensures f'.phis[t][k].id == f.phis[t][k].id && f.phis[t][k].id !in IdsOf(p.moved)
    ensures PairSame(args, env, env', Incoming(f.phis[t][k].pairs, u), Incoming(f'.phis[t][k].pairs, u))
  {
    hide InLoop, Available, Reachable, MovedOk, SameAt, DefinedAt, LoopGraph, IdsOf;
    assert PhiAt(f, f.phis[t][k].id, t, k);
    if t == p.header {
      OutsidePreheader(f, p);
      HeaderPairs(f, p, k);
      RelabelledIncoming(f, p, f.phis[t][k].pairs, u);
    }
    var v := Incoming(f.phis[t][k].pairs, u);
    if v.Some? {
      OperandAgrees(f, IdsOf(p.moved), args, env, env', u, |f.body[u]|, v.value);
    }
  }

  lemma OutsidePreheader(f: Func, p: Plan)
    requires WellFormedFunc(f) && LoopGraph(f.graph) && EnteredOnce(f, p)
    ensures !InLoop(f.graph, p.header, p.preheader)
  {
    if InLoop(f.graph, p.header, p.preheader) {
      LoopDominated(f.graph, p.header, p.preheader);
      ReachableInBlocks(f.graph, p.preheader);
    }
  }

  lemma HeaderPairs(f: Func, p: Plan, k: nat)
    requires WellFormedFunc(f) && p.header in f.graph.blocks && PairsAtHeader(f, p) && k < |f.phis[p.header]|
    ensures forall i | 0 <= i < |f.phis[p.header][k].pairs| ::
              f.phis[p.header][k].pairs[i].1 == p.outside || InLoop(f.graph, p.header, f.phis[p.header][k].pairs[i].1)
  {
    hide InLoop;
    var pairs := f.phis[p.header][k].pairs;
    forall i | 0 <= i < |pairs| ensures pairs[i].1 == p.outside || InLoop(f.graph, p.header, pairs[i].1) {
      assert (pairs[i].0, pairs[i].1) in f.phis[p.header][k].pairs;
    }
  }

  lemma PhisLength(f: Func, f': Func, p: Plan, t: Block)
    requires WellFormedFunc(f) && Hoisted(f, f', p) && t in f.graph.blocks
    ensures t in f.phis && t in f'.phis && |f'.phis[t]| == |f.phis[t]|
  {
  }

  /** An edge that is the same in both functions. */
  lemma EdgeAgrees(view: View, f: Func, f': Func, p: Plan, sem: Sem, args: seq<int>, r: Regs, r': Regs, u: Block, t: Block)
    requires Hoistable(f, p) && Hoisted(f, f', p) && Edge(f.graph, u, t) && Reachable(f.graph, u) && u != p.outside
    requires u in f.body && Agrees(view, f, p, sem, args, r, r', u, |f.body[u]|)
    ensures t in f.graph.blocks && t in f.phis && t in f'.phis
    ensures Agrees(view, f, p, sem, args, r.(env := EnterPhis(args, r.env, f.phis[t], u)), r'.(env := EnterPhis(args, r'.env, f'.phis[t], u)), t, 0)
  {
    hide InLoop, Available, Reachable, MovedOk, Fixed, Hoisted, PairsAtHeader, PhiAt, DefinedAt, IdsOf, ValuesOk, LoopGraph, EnteredOnce, PairSame;
    EdgeTarget(f, u, t);
    PhisLength(f, f', p, t);
    EdgeValues(f, f', p, args, r.env, r'.env, u, t);
    EdgeFixed(f, f', p, sem, args, r'.env, r'.events, u, t);
  }

  lemma EdgeValues(f: Func, f': Func, p: Plan, args: seq<int>, env: map<Id, int>, env': map<Id, int>, u: Block, t: Block)
    requires Hoistable(f, p) && Hoisted(f, f', p) && Edge(f.graph, u, t) && Reachable(f.graph, u) && u != p.outside
    requires u in f.body && SameAt(f, IdsOf(p.moved), env, env', u, |f.body[u]|) && t in f.graph.blocks && t in f.phis && t in f'.phis && |f'.phis[t]| == |f.phis[t]|
    ensures SameAt(f, IdsOf(p.moved), EnterPhis(args, env, f.phis[t], u), EnterPhis(args, env', f'.phis[t], u), t, 0)
    ensures forall k | 0 <= k < |f.phis[t]| :: f'.phis[t][k].id == f.phis[t][k].id && f.phis[t][k].id !in IdsOf(p.moved)
  {
    hide InLoop, Available, Reachable, MovedOk, Hoisted, PairsAtHeader, PhiAt, DefinedAt, IdsOf, ValuesOk, LoopGraph, EnteredOnce, PairSame;
    var moved := IdsOf(p.moved);
    forall k | 0 <= k < |f.phis[t]|
      ensures f'.phis[t][k].id == f.phis[t][k].id && f.phis[t][k].id !in moved
      ensures PairSame(args, env, env', Incoming(f.phis[t][k].pairs, u), Incoming(f'.phis[t][k].pairs, u))
    {
      PairsSame(f, f', p, args, env, env', u, t, k);
    }
    PhisSame(f, args, moved, env, env', f.phis[t], f'.phis[t], u, u);
    forall id | id in moved && Available(f, id, t, 0) ensures Available(f, id, u, |f.body[u]|) {
      AvailableBefore(f, id, u, t);
    }
  }

  lemma EdgeFixed(f: Func, f': Func, p: Plan, sem: Sem, args: seq<int>, env': map<Id, int>, events: seq<Event>, u: Block, t: Block)
    requires Hoistable(f, p) && Edge(f.graph, u, t) && u != p.outside && (InLoop(f.graph, p.header, u) ==> Fixed(sem, args, p.moved, env', events))
    requires t in f.graph.blocks && t in f.phis && t in f'.phis && |f'.phis[t]| == |f.phis[t]|
    requires forall k | 0 <= k < |f.phis[t]| :: f'.phis[t][k].id == f.phis[t][k].id && f.phis[t][k].id !in IdsOf(p.moved)
    ensures InLoop(f.graph, p.header, t) ==> Fixed(sem, args, p.moved, EnterPhis(args, env', f'.phis[t], u), events)
  {
    hide InLoop, MovedOk, Fixed, PairsAtHeader, IdsOf, ValuesOk, LoopGraph;
    if InLoop(f.graph, p.header, t) {
      if t != p.header {
        LoopPred(f.graph, p.header, u, t);
      }
      assert f'.phis[t][..|f'.phis[t]|] == f'.phis[t];
      FixedPhis(f, p, sem, args, env', events, t, f'.phis[t], u, |f'.phis[t]|);
    }
  }

  lemma EdgeTarget(f: Func, u: Block, t: Block)
    requires WellFormedFunc(f) && Edge(f.graph, u, t)
    ensures t in f.graph.blocks
  {
  }

  /** Entering the loop: the preheader first. */
  lemma EntryAgrees(view: View, f: Func, f': Func, p: Plan, sem: Sem, args: seq<int>, r: Regs, r': Regs)
    requires Hoistable(f, p) && Quietly(view, f, p) && Honest(view, sem) && Hoisted(f, f', p) && Reachable(f.graph, p.outside)
    requires p.outside in f.body && Agrees(view, f, p, sem, args, r, r', p.outside, |f.body[p.outside]|)
    ensures p.header in f.phis && p.header in f'.phis
    ensures var before := Steps(sem, args, r', p.moved);
            Agrees(view, f, p, sem, args, r.(env := EnterPhis(args, r.env, f.phis[p.header], p.outside)),
                   before.(env := EnterPhis(args, before.env, f'.phis[p.header], p.preheader)), p.header, 0)
  {
    hide InLoop, Available, Reachable, MovedOk, Fixed, Hoisted, PairsAtHeader, PhiAt, DefinedAt, IdsOf, ValuesOk, Alike, Honest, Quietly;
    var h, moved := p.header, IdsOf(p.moved);
    var before := Steps(sem, args, r', p.moved);
    assert p.moved[..|p.moved|] == p.moved;
    MovedRun(view, f, p, sem, args, r', |p.moved|);
    AlikeTransitive(view, r.events, r'.events, before.events);
    PhisLength(f, f', p, h);
    forall k | 0 <= k < |f.phis[h]|
      ensures f'.phis[h][k].id == f.phis[h][k].id && f.phis[h][k].id !in moved
      ensures PairSame(args, r.env, before.env, Incoming(f.phis[h][k].pairs, p.outside), Incoming(f'.phis[h][k].pairs, p.preheader))
    {
      EntryPairs(f, f', p, args, r.env, before.env, k);
    }
    PhisSame(f, args, moved, r.env, before.env, f.phis[h], f'.phis[h], p.outside, p.preheader);
    forall id | id in moved ensures !Available(f, id, h, 0) {
      NotAvailableBefore(f, p, id);
    }
    HeaderInside(f, p);
    assert f'.phis[h][..|f'.phis[h]|] == f'.phis[h];
    FixedPhis(f, p, sem, args, before.env, before.events, h, f'.phis[h], p.preheader, |f'.phis[h]|);
  }

  lemma HeaderInside(f: Func, p: Plan)
    requires EnteredOnce(f, p)
    ensures InLoop(f.graph, p.header, p.header)
  {
  }

  lemma EntryPairs(f: Func, f': Func, p: Plan, args: seq<int>, env: map<Id, int>, env': map<Id, int>, k: nat)
    requires Hoistable(f, p) && Hoisted(f, f', p) && Reachable(f.graph, p.outside) && k < |f.phis[p.header]| && |f'.phis[p.header]| == |f.phis[p.header]|
    requires forall id | id !in IdsOf(p.moved) :: (id in env <==> id in env') && (id in env ==> env'[id] == env[id])
    ensures f'.phis[p.header][k].id == f.phis[p.header][k].id && f.phis[p.header][k].id !in IdsOf(p.moved)
    ensures PairSame(args, env, env', Incoming(f.phis[p.header][k].pairs, p.outside), Incoming(f'.phis[p.header][k].pairs, p.preheader))
  {
    hide InLoop, Available, Reachable, MovedOk, DefinedAt, LoopGraph, IdsOf;
    var pairs := f.phis[p.header][k].pairs;
    assert PhiAt(f, f.phis[p.header][k].id, p.header, k);
    OutsidePreheader(f, p);
    HeaderPairs(f, p, k);
    RelabelledIncoming(f, p, pairs, p.preheader);
    EdgeIn(f, p);
    var v := Incoming(pairs, p.outside);
    if v.Some? && v.value.Res? && v.value.id in IdsOf(p.moved) {
      NotAvailableBefore(f, p, v.value.id);
      assert false;
    }
  }

  // ----- whole runs -----

  ghost predicate MachinesAgree(view: View, f: Func, p: Plan, sem: Sem, args: seq<int>, m: Machine, m': Machine) {
    match m
    case Running(b, r) => m'.Running? && m'.block == b && b in f.graph.blocks && Reachable(f.graph, b) && Agrees(view, f, p, sem, args, r, m'.regs, b, 0)
    case Returned(v, r) => m'.Returned? && m'.val == v && Alike(view, r.events, m'.regs.events) && m'.regs.clean == r.clean
  }

  /** One block of the function is one block of the other, or two where the loop is entered. */
  lemma BlockAgrees(view: View, f: Func, f': Func, p: Plan, sem: Sem, args: seq<int>, m: Machine, m': Machine) returns (more: nat)
    requires Hoistable(f, p) && Quietly(view, f, p) && Honest(view, sem) && Hoisted(f, f', p) && MachinesAgree(view, f, p, sem, args, m, m') && m.Running?
    ensures more == 1 || more == 2
    ensures var m1 := RunBlock(f', sem, args, m');
            MachinesAgree(view, f, p, sem, args, RunBlock(f, sem, args, m), if more == 1 then m1 else RunBlock(f', sem, args, m1))
  {
    hide Agrees, Hoistable, Hoisted, Reachable, Steps, RunBlock;
    var b := m.block;
    BlockBodies(f, f', p, b);
    var instrs := f.body[b];
    assert instrs[..|instrs|] == instrs;
    BodyAgrees(view, f, p, sem, args, m.regs, m'.regs, b, |instrs|);
    if b == p.outside {
      more := 2;
      EnteringAgrees(view, f, f', p, sem, args, m.regs, m'.regs);
    } else {
      more := 1;
      StayingAgrees(view, f, f', p, sem, args, m.regs, m'.regs, b);
    }
  }

  lemma EnteringAgrees(view: View, f: Func, f': Func, p: Plan, sem: Sem, args: seq<int>, r: Regs, r': Regs)
    requires Hoistable(f, p) && Quietly(view, f, p) && Honest(view, sem) && Hoisted(f, f', p) && Reachable(f.graph, p.outside) && p.outside in f.body && p.outside in f'.body
    requires Agrees(view, f, p, sem, args, Steps(sem, args, r, f.body[p.outside]), Steps(sem, args, r', f'.body[p.outside]), p.outside, |f.body[p.outside]|)
    ensures MachinesAgree(view, f, p, sem, args, RunBlock(f, sem, args, Running(p.outside, r)), RunBlock(f', sem, args, RunBlock(f', sem, args, Running(p.outside, r'))))
  {
    hide Agrees, InLoop, Reachable, MovedOk, ValuesOk, PairsAtHeader, Steps, IdsOf, Eval, Hoisted;
    var s, s' := Steps(sem, args, r, f.body[p.outside]), Steps(sem, args, r', f'.body[p.outside]);
    EdgeIn(f, p);
    EntryAgrees(view, f, f', p, sem, args, s, s');
    PreheaderRun(f, f', p, sem, args, Running(p.outside, r'), s');
  }

  lemma StayingAgrees(view: View, f: Func, f': Func, p: Plan, sem: Sem, args: seq<int>, r: Regs, r': Regs, b: Block)
    requires Hoistable(f, p) && Hoisted(f, f', p) && b in f.graph.blocks && Reachable(f.graph, b) && b != p.outside
    requires b in f.body && b in f.term && b in f'.body && b in f'.term && f'.term[b] == f.term[b]
    requires Agrees(view, f, p, sem, args, Steps(sem, args, r, f.body[b]), Steps(sem, args, r', f'.body[b]), b, |f.body[b]|)
    ensures MachinesAgree(view, f, p, sem, args, RunBlock(f, sem, args, Running(b, r)), RunBlock(f', sem, args, Running(b, r')))
  {
    hide Agrees, Hoistable, Hoisted, Reachable, Steps, Eval;
    var s, s' := Steps(sem, args, r, f.body[b]), Steps(sem, args, r', f'.body[b]);
    TermAgrees(view, f, p, sem, args, s, s', b);
    AgreesParts(view, f, p, sem, args, s, s', b, |f.body[b]|);
    JumpsAgree(view, f, f', p, sem, args, s, s', b);
  }

  lemma JumpsAgree(view: View, f: Func, f': Func, p: Plan, sem: Sem, args: seq<int>, r: Regs, r': Regs, b: Block)
    requires Hoistable(f, p) && Hoisted(f, f', p) && b in f.graph.blocks && Reachable(f.graph, b) && b != p.outside && b in f.term
    requires b in f.body && Agrees(view, f, p, sem, args, r, r', b, |f.body[b]|)
    ensures forall t | t in Targets(f.term[b]) :: MachinesAgree(view, f, p, sem, args, Jump(f, args, r, b, t), Jump(f', args, r', b, t))
  {
    hide Agrees, InLoop, Reachable, MovedOk, ValuesOk, PairsAtHeader, IdsOf, EnterPhis, Hoisted, EnteredOnce, LoopGraph;
    forall t | t in Targets(f.term[b]) ensures MachinesAgree(view, f, p, sem, args, Jump(f, args, r, b, t), Jump(f', args, r', b, t)) {
      TargetEdge(f, b, t);
      EdgeAgrees(view, f, f', p, sem, args, r, r', b, t);
    }
  }

  lemma TargetEdge(f: Func, b: Block, t: Block)
    requires WellFormedFunc(f) && b in f.graph.blocks && Reachable(f.graph, b) && t in Targets(f.term[b])
    ensures Edge(f.graph, b, t) && Reachable(f.graph, t)
  {
    assert t in f.graph.succ[b];
    SuccReachable(f.graph, b, t);
  }

  lemma AgreesParts(view: View, f: Func, p: Plan, sem: Sem, args: seq<int>, r: Regs, r': Regs, b: Block, i: int)
    requires Agrees(view, f, p, sem, args, r, r', b, i)
    ensures r'.slots == r.slots && Alike(view, r.events, r'.events) && r'.clean == r.clean
  {
  }

  lemma BlockBodies(f: Func, f': Func, p: Plan, b: Block)
    requires Hoistable(f, p) && Hoisted(f, f', p) && b in f.graph.blocks
    ensures b in f.body && b in f'.body && f'.body[b] == Without(IdsOf(p.moved), f.body[b]) && b in f.term && b in f'.term
    ensures f'.term[b] == (if b == p.outside then Br(p.preheader) else f.term[b])
  {
  }

  /** Through the preheader, to the head of the loop. */
  lemma PreheaderRun(f: Func, f': Func, p: Plan, sem: Sem, args: seq<int>, m': Machine, r': Regs)
    requires WellFormedFunc(f) && Hoisted(f, f', p) && EnteredOnce(f, p) && m'.Running? && m'.block == p.outside
    requires p.outside in f'.body && r' == Steps(sem, args, m'.regs, f'.body[p.outside])
    ensures p.header in f'.phis
    ensures var before := Steps(sem, args, r', p.moved);
            RunBlock(f', sem, args, RunBlock(f', sem, args, m')) == Running(p.header, before.(env := EnterPhis(args, before.env, f'.phis[p.header], p.preheader)))
  {
    hide Steps, InLoop;
    assert EnterPhis(args, r'.env, [], p.outside) == r'.env;
    assert RunBlock(f', sem, args, m') == Running(p.preheader, r');
  }

  lemma TermAgrees(view: View, f: Func, p: Plan, sem: Sem, args: seq<int>, r: Regs, r': Regs, b: Block)
    requires Hoistable(f, p) && b in f.graph.blocks && Reachable(f.graph, b) && b in f.body && b in f.term
    requires Agrees(view, f, p, sem, args, r, r', b, |f.body[b]|)
    ensures forall v | v in TermUses(f.term[b]) :: Eval(args, r'.env, v) == Eval(args, r.env, v)
  {
    hide InLoop, Available, Reachable, MovedOk, Fixed, PairsAtHeader, EnteredOnce, LoopGraph, SameAt, IdsOf;
    forall v | v in TermUses(f.term[b]) ensures Eval(args, r'.env, v) == Eval(args, r.env, v) {
      OperandAgrees(f, IdsOf(p.moved), args, r.env, r'.env, b, |f.body[b]|, v);
    }
  }

  lemma StartAgrees(view: View, f: Func, f': Func, p: Plan, sem: Sem, args: seq<int>)
    requires Hoistable(f, p) && Hoisted(f, f', p)
    ensures MachinesAgree(view, f, p, sem, args, Run(f, sem, args, 0), Run(f', sem, args, 0))
  {
    hide Available, MovedOk, ValuesOk, Fixed, PairsAtHeader;
    EntryReachable(f.graph);
    var e := f.graph.entry;
    EntryOutside(f, p);
    forall id ensures !Available(f, id, e, 0) {
      NothingAtEntry(f, id);
    }
  }

  lemma EntryOutside(f: Func, p: Plan)
    requires LoopGraph(f.graph) && EnteredOnce(f, p)
    ensures !InLoop(f.graph, p.header, f.graph.entry)
  {
    EntryReachable(f.graph);
    if InLoop(f.graph, p.header, f.graph.entry) {
      LoopDominated(f.graph, p.header, f.graph.entry);
    }
  }

  lemma NothingAtEntry(f: Func, id: Id)
    ensures !Available(f, id, f.graph.entry, 0)
  {
    EntryReachable(f.graph);
    forall c, j | DefinedAt(f, id, c, j) ensures !((c == f.graph.entry && j < 0) || StrictlyDominates(f.graph, c, f.graph.entry)) {
    }
  }

  lemma {:induction false} RunAgrees(view: View, f: Func, f': Func, p: Plan, sem: Sem, args: seq<int>, n: nat) returns (k: nat)
    requires Hoistable(f, p) && Quietly(view, f, p) && Honest(view, sem) && Hoisted(f, f', p)
    ensures k >= n && MachinesAgree(view, f, p, sem, args, Run(f, sem, args, n), Run(f', sem, args, k))
    decreases n
  {
    hide Hoistable, Hoisted, RunBlock, Agrees;
    if n == 0 {
      StartAgrees(view, f, f', p, sem, args);
      k := 0;
    } else {
      var j := RunAgrees(view, f, f', p, sem, args, n - 1);
      var m, m' := Run(f, sem, args, n - 1), Run(f', sem, args, j);
      if m.Running? {
        var more := BlockAgrees(view, f, f', p, sem, args, m, m');
        assert Run(f', sem, args, j + 1) == RunBlock(f', sem, args, m');
        assert Run(f', sem, args, j + 2) == RunBlock(f', sem, args, Run(f', sem, args, j + 1));
        k := j + more;
      } else {
        StaysReturned(f, sem, args, n - 1);
        StaysReturned(f', sem, args, j);
        k := j + 1;
      }
    }
  }

  lemma StaysReturned(f: Func, sem: Sem, args: seq<int>, n: nat)
    requires Run(f, sem, args, n).Returned?
    ensures Run(f, sem, args, n + 1) == Run(f, sem, args, n)
  {
  }

  /** The same place and result, after events that look the same. */
  ghost predicate SameLook(view: View, m: Machine, m': Machine) {
    && Alike(view, m.regs.events, m'.regs.events) && m'.regs.clean == m.regs.clean
    && (m.Running? ==> m'.Running? && m'.block == m.block)
    && (m.Returned? ==> m'.Returned? && m'.val == m.val)
  }

  /** Wherever f is after n blocks, f' is at some time, and not earlier. */
  ghost predicate Lags(view: View, f: Func, f': Func) {
    forall sem: Sem, args: seq<int>, n: nat | Honest(view, sem) :: LagsAt(view, f, f', sem, args, n)
  }

  ghost predicate LagsAt(view: View, f: Func, f': Func, sem: Sem, args: seq<int>, n: nat) {
    exists k: nat :: k >= n && SameLook(view, Run(f, sem, args, n), Run(f', sem, args, k))
  }

  /** Moving the operations changes nothing that a run does, as long as loads and calls are moved out of quiet loops only. */
  lemma HoistedLags(view: View, f: Func, f': Func, p: Plan)
    requires Hoistable(f, p) && Quietly(view, f, p) && Hoisted(f, f', p)
    ensures Lags(view, f, f')
  {
    hide Hoistable, Hoisted, Run, Quietly, Honest;
    forall sem: Sem, args: seq<int>, n: nat | Honest(view, sem) ensures LagsAt(view, f, f', sem, args, n) {
      var k := RunAgrees(view, f, f', p, sem, args, n);
      MachinesSame(view, f, p, sem, args, Run(f, sem, args, n), Run(f', sem, args, k));
    }
  }

  lemma MachinesSame(view: View, f: Func, p: Plan, sem: Sem, args: seq<int>, m: Machine, m': Machine)
    requires MachinesAgree(view, f, p, sem, args, m, m')
    ensures SameLook(view, m, m')
  {
    hide SameAt, InLoop, Fixed, Alike;
  }
}
