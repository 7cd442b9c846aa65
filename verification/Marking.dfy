/** Removing instructions that nothing needs: which they are, and why nobody sees them go. */
module Marking {
  import opened Common
  import opened Cfg
  import opened Ir

  /** The callees that have been found to be pure. */
  type Pures = set<int>

  /** An instruction of any kind: what it uses and what it defines. */
  datatype Item = PhiItem(phi: Phi) | InstrItem(instr: Instr) | TermItem(term: Term)

  function PairVals(pairs: seq<(Val, Block)>): seq<Val> {
    if pairs == [] then [] else [pairs[0].0] + PairVals(pairs[1..])
  }

  function Operands(item: Item): seq<Val> {
    match item
    case PhiItem(phi) => PairVals(phi.pairs)
    case InstrItem(instr) => Uses(instr)
    case TermItem(t) => TermUses(t)
  }

  function Defined(item: Item): Option<Id> {
    match item
    case PhiItem(phi) => Some(phi.id)
    case InstrItem(instr) => Defines(instr)
    case TermItem(_) => None
  }

  /** Stores, terminators and calls of functions that are not pure. */
  predicate IsCritical(pure: Pures, item: Item) {
    match item
    case PhiItem(_) => false
    case TermItem(_) => true
    case InstrItem(Load(_, _)) => false
    case InstrItem(Store(_, _)) => true
    case InstrItem(Op(_, op, _)) => op.StorePtr? || (op.Call? && op.callee !in pure)
  }

  ghost predicate ItemAt(f: Func, b: Block, item: Item)
    requires WellFormedFunc(f) && b in f.graph.blocks
  {
    match item
    case PhiItem(phi) => phi in f.phis[b]
    case InstrItem(instr) => instr in f.body[b]
    case TermItem(t) => t == f.term[b]
  }

  ghost predicate ItemIn(f: Func, item: Item)
    requires WellFormedFunc(f)
  {
    exists b :: b in f.graph.blocks && ItemAt(f, b, item)
  }

  ghost predicate DefinedIn(f: Func, id: Id)
    requires WellFormedFunc(f)
  {
    exists item :: ItemIn(f, item) && Defined(item) == Some(id)
  }

  /** Every value has one definition. */
  ghost predicate DefinedOnce(f: Func)
    requires WellFormedFunc(f)
  {
    forall a, b | ItemIn(f, a) && ItemIn(f, b) && Defined(a).Some? && Defined(a) == Defined(b) :: a == b
  }

  /** Whether an item stays: by itself, or because its value does. */
  predicate Stays(pure: Pures, kept: set<Id>, item: Item) {
    if Defined(item).Some? then Defined(item).value in kept else IsCritical(pure, item)
  }

  /** The set has the values of the critical items, and the operands of everything that stays. */
  ghost predicate NeedsClosed(f: Func, pure: Pures, kept: set<Id>)
    requires WellFormedFunc(f)
  {
    && (forall item | ItemIn(f, item) && IsCritical(pure, item) :: Stays(pure, kept, item))
    && (forall item, v | ItemIn(f, item) && Stays(pure, kept, item) && v in Operands(item) && v.Res? && DefinedIn(f, v.id) :: v.id in kept)
  }

  /** The least such set. */
  ghost predicate LeastNeeds(f: Func, pure: Pures, kept: set<Id>)
    requires WellFormedFunc(f)
  {
    NeedsClosed(f, pure, kept) && forall s | NeedsClosed(f, pure, s) :: kept <= s
  }

  // ----- the swept function -----

  function SweptBody(pure: Pures, kept: set<Id>, instrs: seq<Instr>): seq<Instr> {
    if instrs == [] then []
    else
      var last := instrs[|instrs| - 1];
      SweptBody(pure, kept, instrs[..|instrs| - 1]) + if Stays(pure, kept, InstrItem(last)) then [last] else []
  }

  function SweptPhis(pure: Pures, kept: set<Id>, phis: seq<Phi>): seq<Phi> {
    if phis == [] then []
    else
      var last := phis[|phis| - 1];
      SweptPhis(pure, kept, phis[..|phis| - 1]) + if Stays(pure, kept, PhiItem(last)) then [last] else []
  }

  /** f' is f without what does not stay. */
  ghost predicate Swept(f: Func, f': Func, pure: Pures, kept: set<Id>)
    requires WellFormedFunc(f)
  {
    && f'.graph == f.graph && f'.term == f.term
    && forall b | b in f.graph.blocks ::
         && b in f'.body && f'.body[b] == SweptBody(pure, kept, f.body[b])
         && b in f'.phis && f'.phis[b] == SweptPhis(pure, kept, f.phis[b])
  }

  lemma {:induction false} SweptMembers(pure: Pures, kept: set<Id>, instrs: seq<Instr>)
    ensures forall i :: i in SweptBody(pure, kept, instrs) <==> i in instrs && Stays(pure, kept, InstrItem(i))
    decreases |instrs|
  {
    if instrs != [] {
      var init, last := instrs[..|instrs| - 1], instrs[|instrs| - 1];
      SweptMembers(pure, kept, init);
      assert forall i :: i in instrs <==> i in init || i == last;
    }
  }

  lemma {:induction false} SweptPhiMembers(pure: Pures, kept: set<Id>, phis: seq<Phi>)
    ensures forall p :: p in SweptPhis(pure, kept, phis) <==> p in phis && Stays(pure, kept, PhiItem(p))
    decreases |phis|
  {
    if phis != [] {
      var init, last := phis[..|phis| - 1], phis[|phis| - 1];
      SweptPhiMembers(pure, kept, init);
      assert forall p :: p in phis <==> p in init || p == last;
    }
  }

  lemma SweptItems(f: Func, f': Func, pure: Pures, kept: set<Id>)
    requires WellFormedFunc(f) && Swept(f, f', pure, kept)
    ensures WellFormedFunc(f')
    ensures forall item :: ItemIn(f', item) <==> ItemIn(f, item) && Stays(pure, kept, item)
  {
    forall b, item | b in f.graph.blocks ensures ItemAt(f', b, item) <==> ItemAt(f, b, item) && Stays(pure, kept, item) {
      SweptMembers(pure, kept, f.body[b]);
      SweptPhiMembers(pure, kept, f.phis[b]);
    }
    forall item ensures ItemIn(f', item) <==> ItemIn(f, item) && Stays(pure, kept, item) {
      if ItemIn(f', item) {
        var b :| b in f'.graph.blocks && ItemAt(f', b, item);
        assert b in f.graph.blocks && ItemAt(f, b, item);
      }
      if ItemIn(f, item) && Stays(pure, kept, item) {
        var b :| b in f.graph.blocks && ItemAt(f, b, item);
        assert b in f'.graph.blocks && ItemAt(f', b, item);
      }
    }
  }

  /** No instruction that is left uses one that was removed. */
  lemma SweptUses(f: Func, f': Func, pure: Pures, kept: set<Id>, item: Item, v: Val)
    requires WellFormedFunc(f) && NeedsClosed(f, pure, kept) && Swept(f, f', pure, kept) && WellFormedFunc(f')
    requires ItemIn(f', item) && v in Operands(item) && v.Res? && DefinedIn(f, v.id)
    ensures DefinedIn(f', v.id)
  {
    SweptItems(f, f', pure, kept);
    var d :| ItemIn(f, d) && Defined(d) == Some(v.id);
    assert ItemIn(f', d);
  }

  /** Once is enough: what is left is all needed. */
  lemma SweptAgain(f: Func, f': Func, pure: Pures, kept: set<Id>, kept': set<Id>)
    requires WellFormedFunc(f) && LeastNeeds(f, pure, kept) && Swept(f, f', pure, kept)
    requires WellFormedFunc(f') && NeedsClosed(f', pure, kept')
    ensures forall item | ItemIn(f', item) :: Stays(pure, kept', item)
  {
    SweptItems(f, f', pure, kept);
    var s := kept * kept';
    forall item, v | ItemIn(f, item) && Stays(pure, s, item) && v in Operands(item) && v.Res? && DefinedIn(f, v.id) ensures v.id in s {
      assert ItemIn(f', item);
      SweptUses(f, f', pure, kept, item, v);
    }
    forall item | ItemIn(f, item) && IsCritical(pure, item) ensures Stays(pure, s, item) {
      assert ItemIn(f', item);
    }
    assert NeedsClosed(f, pure, s);
  }

  // ----- what is seen -----

  /** Loads and calls of pure functions cannot be seen. */
  predicate Seen(pure: Pures, e: Event) {
    !e.op.LoadPtr? && !(e.op.Call? && e.op.callee in pure)
  }

  function Visible(pure: Pures, events: seq<Event>): seq<Event> {
    if events == [] then []
    else
      var last := events[|events| - 1];
      Visible(pure, events[..|events| - 1]) + if Seen(pure, last) then [last] else []
  }

  /** What loads and calls give does not depend on earlier loads and calls of pure functions. */
  ghost predicate Transparent(sem: Sem, pure: Pures) {
    forall events, op, vs :: sem.outside(events, op, vs) == sem.outside(Visible(pure, events), op, vs)
  }

  ghost predicate SameSeen(pure: Pures, m: Machine, m': Machine) {
    && Visible(pure, m.regs.events) == Visible(pure, m'.regs.events) && (m.regs.clean ==> m'.regs.clean)
    && (m.Running? ==> m'.Running? && m'.block == m.block)
    && (m.Returned? ==> m'.Returned? && m'.val == m.val)
  }

  /** As far as can be seen, f' does what f does, in runs of any length. */
  ghost predicate SeenAs(pure: Pures, f: Func, f': Func) {
    forall sem: Sem, args: seq<int>, n: nat | Transparent(sem, pure) :: SameSeen(pure, Run(f, sem, args, n), Run(f', sem, args, n))
  }

  lemma SeenAsTrans(pure: Pures, f: Func, g: Func, h: Func)
    requires SeenAs(pure, f, g) && SeenAs(pure, g, h)
    ensures SeenAs(pure, f, h)
  {
    hide Run, Visible;
    forall sem: Sem, args: seq<int>, n: nat | Transparent(sem, pure) ensures SameSeen(pure, Run(f, sem, args, n), Run(h, sem, args, n)) {
      assert SameSeen(pure, Run(f, sem, args, n), Run(g, sem, args, n));
      assert SameSeen(pure, Run(g, sem, args, n), Run(h, sem, args, n));
    }
  }

  // ----- what is needed, by chains of uses -----

  /** It decides where control goes, what a slot holds, or makes an event that can be seen. */
  ghost predicate Noticed(pure: Pures, item: Item) {
    || item.TermItem?
    || (item.InstrItem? && item.instr.Store?)
    || (item.InstrItem? && item.instr.Op? && !IsPureOp(item.instr.op) && Seen(pure, Event(item.instr.op, [])))
  }

  lemma CriticalNoticed(pure: Pures, item: Item)
    ensures IsCritical(pure, item) <==> Noticed(pure, item)
  {
  }

  ghost predicate UsesValueOf(user: Item, item: Item) {
    Defined(item).Some? && Res(Defined(item).value) in Operands(user)
  }

  /** Each item of the chain uses what the one before defines, and the last one is noticed. */
  ghost predicate NeedChain(f: Func, pure: Pures, chain: seq<Item>)
    requires WellFormedFunc(f)
  {
    && |chain| > 0 && (forall i | 0 <= i < |chain| :: ItemIn(f, chain[i])) && Noticed(pure, chain[|chain| - 1])
    && forall i | 0 <= i < |chain| - 1 :: UsesValueOf(chain[i + 1], chain[i])
  }

  ghost predicate Needed(f: Func, pure: Pures, item: Item)
    requires WellFormedFunc(f)
  {
    exists chain :: NeedChain(f, pure, chain) && chain[0] == item
  }

  lemma NeededByUser(f: Func, pure: Pures, user: Item, item: Item)
    requires WellFormedFunc(f) && Needed(f, pure, user) && ItemIn(f, item) && UsesValueOf(user, item)
    ensures Needed(f, pure, item)
  {
    hide ItemIn, UsesValueOf, Noticed, WellFormedFunc;
    var chain :| NeedChain(f, pure, chain) && chain[0] == user;
    assert NeedChain(f, pure, [item] + chain);
  }

  lemma NoticedNeeded(f: Func, pure: Pures, item: Item)
    requires WellFormedFunc(f) && ItemIn(f, item) && Noticed(pure, item)
    ensures Needed(f, pure, item)
  {
    assert NeedChain(f, pure, [item]);
  }

  /** If nothing but the least closed set stays, every item is needed by a chain of uses. */
  lemma LeastNeeded(f: Func, pure: Pures, kept: set<Id>, item: Item)
    requires WellFormedFunc(f) && DefinedOnce(f) && LeastNeeds(f, pure, kept) && (forall x | ItemIn(f, x) :: Stays(pure, kept, x)) && ItemIn(f, item)
    ensures Needed(f, pure, item)
  {
    hide ItemIn, Needed, IsCritical, Noticed, WellFormedFunc;
    var s := set id | id in kept && exists x :: ItemIn(f, x) && Defined(x) == Some(id) && Needed(f, pure, x);
    forall x | ItemIn(f, x) ensures (IsCritical(pure, x) ==> Needed(f, pure, x)) && (Stays(pure, s, x) <==> Needed(f, pure, x)) {
      CriticalNoticed(pure, x);
      if Noticed(pure, x) {
        NoticedNeeded(f, pure, x);
      }
      if Needed(f, pure, x) && !Noticed(pure, x) {
        NeededDefines(f, pure, x);
      }
    }
    forall x, v | ItemIn(f, x) && Stays(pure, s, x) && v in Operands(x) && v.Res? && DefinedIn(f, v.id) ensures v.id in s {
      var z :| ItemIn(f, z) && Defined(z) == Some(v.id);
      NeededByUser(f, pure, x, z);
      assert Stays(pure, kept, z);
    }
    assert NeedsClosed(f, pure, s);
    assert Stays(pure, kept, item);
  }

  /** What is needed without being noticed has a value that is used. */
  lemma NeededDefines(f: Func, pure: Pures, item: Item)
    requires WellFormedFunc(f) && Needed(f, pure, item) && !Noticed(pure, item)
    ensures Defined(item).Some?
  {
    hide ItemIn, Noticed, WellFormedFunc;
    var chain :| NeedChain(f, pure, chain) && chain[0] == item;
    assert UsesValueOf(chain[0 + 1], chain[0]);
  }

  // ----- why -----

  /** Everything but what is removed has the same value. */
  ghost predicate Agree(f: Func, pure: Pures, kept: set<Id>, r: Regs, r': Regs)
    requires WellFormedFunc(f)
  {
    && (forall id | id in kept || !DefinedIn(f, id) :: (id in r.env <==> id in r'.env) && (id in r.env ==> r'.env[id] == r.env[id]))
    && r'.slots == r.slots && Visible(pure, r'.events) == Visible(pure, r.events) && (r.clean ==> r'.clean)
  }

  lemma OperandAgrees(f: Func, pure: Pures, kept: set<Id>, r: Regs, r': Regs, args: seq<int>, item: Item, v: Val)
    requires WellFormedFunc(f) && NeedsClosed(f, pure, kept) && Agree(f, pure, kept, r, r')
    requires ItemIn(f, item) && Stays(pure, kept, item) && v in Operands(item)
    ensures Eval(args, r'.env, v) == Eval(args, r.env, v)
  {
  }

  lemma SeenNext(pure: Pures, events: seq<Event>, e: Event)
    ensures Visible(pure, events + [e]) == Visible(pure, events) + if Seen(pure, e) then [e] else []
  {
    assert (events + [e])[..|events|] == events;
  }

  /** An instruction that stays, and one that does not. */
  lemma StepAgrees(f: Func, pure: Pures, kept: set<Id>, sem: Sem, args: seq<int>, r: Regs, r': Regs, b: Block, instr: Instr)
    requires WellFormedFunc(f) && NeedsClosed(f, pure, kept) && Agree(f, pure, kept, r, r') && Transparent(sem, pure)
    requires b in f.graph.blocks && instr in f.body[b]
    ensures Stays(pure, kept, InstrItem(instr)) ==> Agree(f, pure, kept, Step(sem, args, r, instr), Step(sem, args, r', instr))
    ensures !Stays(pure, kept, InstrItem(instr)) ==> Agree(f, pure, kept, Step(sem, args, r, instr), r')
  {
    hide WellFormed, DefinedIn, Eval;
    var item := InstrItem(instr);
    assert ItemAt(f, b, item);
    assert ItemIn(f, item);
    if Stays(pure, kept, item) {
      forall v | v in Uses(instr) ensures Eval(args, r'.env, v) == Eval(args, r.env, v) {
        OperandAgrees(f, pure, kept, r, r', args, item, v);
      }
      if instr.Op? {
        assert EvalAll(args, r'.env, instr.args) == EvalAll(args, r.env, instr.args);
        OpAgrees(f, pure, kept, sem, args, r, r', instr);
      }
    } else {
      RemovedAgrees(f, pure, kept, sem, args, r, r', instr);
    }
  }

  lemma OpAgrees(f: Func, pure: Pures, kept: set<Id>, sem: Sem, args: seq<int>, r: Regs, r': Regs, instr: Instr)
    requires WellFormedFunc(f) && Agree(f, pure, kept, r, r') && Transparent(sem, pure) && instr.Op?
    requires EvalAll(args, r'.env, instr.args) == EvalAll(args, r.env, instr.args)
    ensures Agree(f, pure, kept, Step(sem, args, r, instr), Step(sem, args, r', instr))
  {
    hide WellFormed, DefinedIn, Eval, Visible;
    var ops := EvalAll(args, r.env, instr.args);
    SeenNext(pure, r.events, Event(instr.op, ops));
    SeenNext(pure, r'.events, Event(instr.op, ops));
    assert sem.outside(r.events, instr.op, ops) == sem.outside(Visible(pure, r.events), instr.op, ops);
    assert sem.outside(r'.events, instr.op, ops) == sem.outside(Visible(pure, r'.events), instr.op, ops);
  }

  lemma RemovedAgrees(f: Func, pure: Pures, kept: set<Id>, sem: Sem, args: seq<int>, r: Regs, r': Regs, instr: Instr)
    requires WellFormedFunc(f) && Agree(f, pure, kept, r, r') && NeedsClosed(f, pure, kept)
    requires ItemIn(f, InstrItem(instr)) && !Stays(pure, kept, InstrItem(instr))
    ensures Agree(f, pure, kept, Step(sem, args, r, instr), r')
  {
    hide WellFormed, Eval, Visible;
    var item := InstrItem(instr);
    assert !IsCritical(pure, item);
    assert Defined(item).Some? && DefinedIn(f, Defined(item).value);
    if instr.Op? {
      SeenNext(pure, r.events, Event(instr.op, EvalAll(args, r.env, instr.args)));
    }
  }

  lemma {:induction false} BodyAgrees(f: Func, pure: Pures, kept: set<Id>, sem: Sem, args: seq<int>, r: Regs, r': Regs, b: Block, k: nat)
    requires WellFormedFunc(f) && NeedsClosed(f, pure, kept) && Agree(f, pure, kept, r, r') && Transparent(sem, pure)
    requires b in f.graph.blocks && k <= |f.body[b]|
    ensures Agree(f, pure, kept, Steps(sem, args, r, f.body[b][..k]), Steps(sem, args, r', SweptBody(pure, kept, f.body[b][..k])))
    decreases k
  {
    hide WellFormed, Agree, NeedsClosed, Transparent, Step, Stays;
    var instrs := f.body[b];
    if k > 0 {
      BodyAgrees(f, pure, kept, sem, args, r, r', b, k - 1);
      var s, instr := instrs[..k], instrs[k - 1];
      assert s[..|s| - 1] == instrs[..k - 1] && s[|s| - 1] == instr;
      var before, before' := Steps(sem, args, r, instrs[..k - 1]), SweptBody(pure, kept, instrs[..k - 1]);
      StepAgrees(f, pure, kept, sem, args, before, Steps(sem, args, r', before'), b, instr);
      if Stays(pure, kept, InstrItem(instr)) {
        assert (before' + [instr])[..|before' + [instr]| - 1] == before';
        assert SweptBody(pure, kept, s) == before' + [instr];
      } else {
        assert SweptBody(pure, kept, s) == before' + [];
        assert before' + [] == before';
      }
    }
  }

  lemma {:induction false} PairIncoming(pairs: seq<(Val, Block)>, from: Block)
    ensures Incoming(pairs, from).Some? ==> Incoming(pairs, from).value in PairVals(pairs)
  {
    if pairs != [] && pairs[0].1 != from {
      PairIncoming(pairs[1..], from);
    }
  }

  /** Phis are read in the environment before the edge, so those that stay agree whatever goes. */
  lemma {:induction false} PhisAgree(f: Func, pure: Pures, kept: set<Id>, args: seq<int>, r: Regs, r': Regs, b: Block, from: Block, k: nat)
    requires WellFormedFunc(f) && NeedsClosed(f, pure, kept) && Agree(f, pure, kept, r, r')
    requires b in f.graph.blocks && k <= |f.phis[b]|
    ensures Agree(f, pure, kept, r.(env := EnterPhis(args, r.env, f.phis[b][..k], from)),
                  r'.(env := EnterPhis(args, r'.env, SweptPhis(pure, kept, f.phis[b][..k]), from)))
    decreases k
  {
    hide WellFormed, Agree, NeedsClosed, Stays, Eval, Incoming;
    var phis := f.phis[b];
    if k > 0 {
      PhisAgree(f, pure, kept, args, r, r', b, from, k - 1);
      var s, phi := phis[..k], phis[k - 1];
      assert s[..|s| - 1] == phis[..k - 1] && s[|s| - 1] == phi;
      var swept := SweptPhis(pure, kept, phis[..k - 1]);
      PhiAgrees(f, pure, kept, args, r, r', EnterPhis(args, r.env, phis[..k - 1], from), EnterPhis(args, r'.env, swept, from), b, phi, from);
      if Stays(pure, kept, PhiItem(phi)) {
        assert (swept + [phi])[..|swept + [phi]| - 1] == swept;
        assert SweptPhis(pure, kept, s) == swept + [phi];
      } else {
        assert SweptPhis(pure, kept, s) == swept + [];
        assert swept + [] == swept;
      }
    }
  }

  /** One phi, whose value comes from the environment before the edge. */
  lemma PhiAgrees(f: Func, pure: Pures, kept: set<Id>, args: seq<int>, r: Regs, r': Regs, env: map<Id, int>, env': map<Id, int>,
                  b: Block, phi: Phi, from: Block)
    requires WellFormedFunc(f) && NeedsClosed(f, pure, kept) && Agree(f, pure, kept, r, r') && b in f.graph.blocks && phi in f.phis[b]
    requires Agree(f, pure, kept, r.(env := env), r'.(env := env'))
    ensures var v := Incoming(phi.pairs, from);
            var next := if v.Some? then env[phi.id := Eval(args, r.env, v.value)] else env;
            var next' := if v.Some? then env'[phi.id := Eval(args, r'.env, v.value)] else env';
            Agree(f, pure, kept, r.(env := next), r'.(env := if Stays(pure, kept, PhiItem(phi)) then next' else env'))
  {
    hide WellFormed, Visible, Eval, Incoming, NeedsClosed;
    var item := PhiItem(phi);
    assert ItemAt(f, b, item);
    assert ItemIn(f, item) && Defined(item) == Some(phi.id) && DefinedIn(f, phi.id);
    PairIncoming(phi.pairs, from);
    var v := Incoming(phi.pairs, from);
    if v.Some? && Stays(pure, kept, item) {
      OperandAgrees(f, pure, kept, r, r', args, item, v.value);
    }
  }

  ghost predicate MachinesAgree(f: Func, pure: Pures, kept: set<Id>, m: Machine, m': Machine)
    requires WellFormedFunc(f)
  {
    && Agree(f, pure, kept, m.regs, m'.regs)
    && (m.Running? ==> m'.Running? && m'.block == m.block && m.block in f.graph.blocks)
    && (m.Returned? ==> m'.Returned? && m'.val == m.val)
  }

  lemma BlockAgrees(f: Func, f': Func, pure: Pures, kept: set<Id>, sem: Sem, args: seq<int>, m: Machine, m': Machine)
    requires WellFormedFunc(f) && NeedsClosed(f, pure, kept) && Swept(f, f', pure, kept) && Transparent(sem, pure)
    requires MachinesAgree(f, pure, kept, m, m')
    ensures MachinesAgree(f, pure, kept, RunBlock(f, sem, args, m), RunBlock(f', sem, args, m'))
  {
    hide Agree, NeedsClosed, Transparent, Steps, Eval, Jump;
    if m.Running? {
      var b, instrs := m.block, f.body[m.block];
      assert instrs[..|instrs|] == instrs;
      BodyAgrees(f, pure, kept, sem, args, m.regs, m'.regs, b, |instrs|);
      var r, r' := Steps(sem, args, m.regs, instrs), Steps(sem, args, m'.regs, f'.body[b]);
      TermAgrees(f, pure, kept, args, r, r', b);
      forall t | t in Targets(f.term[b])
        ensures MachinesAgree(f, pure, kept, Jump(f, args, r, b, t), Jump(f', args, r', b, t))
      {
        JumpAgrees(f, f', pure, kept, args, r, r', b, t);
      }
    }
  }

  lemma JumpAgrees(f: Func, f': Func, pure: Pures, kept: set<Id>, args: seq<int>, r: Regs, r': Regs, b: Block, t: Block)
    requires WellFormedFunc(f) && NeedsClosed(f, pure, kept) && Swept(f, f', pure, kept) && Agree(f, pure, kept, r, r')
    requires b in f.graph.blocks && t in Targets(f.term[b])
    ensures MachinesAgree(f, pure, kept, Jump(f, args, r, b, t), Jump(f', args, r', b, t))
  {
    hide Agree, NeedsClosed, Eval, EnterPhis, SweptPhis, SweptBody;
    assert t in f.graph.succ[b];
    assert f.phis[t][..|f.phis[t]|] == f.phis[t];
    PhisAgree(f, pure, kept, args, r, r', t, b, |f.phis[t]|);
  }

  lemma TermAgrees(f: Func, pure: Pures, kept: set<Id>, args: seq<int>, r: Regs, r': Regs, b: Block)
    requires WellFormedFunc(f) && NeedsClosed(f, pure, kept) && Agree(f, pure, kept, r, r') && b in f.graph.blocks
    ensures forall v | v in TermUses(f.term[b]) :: Eval(args, r'.env, v) == Eval(args, r.env, v)
  {
    hide Agree, NeedsClosed, WellFormed;
    var item := TermItem(f.term[b]);
    assert ItemAt(f, b, item);
    assert ItemIn(f, item);
    forall v | v in TermUses(f.term[b]) ensures Eval(args, r'.env, v) == Eval(args, r.env, v) {
      OperandAgrees(f, pure, kept, r, r', args, item, v);
    }
  }

  lemma {:induction false} RunAgrees(f: Func, f': Func, pure: Pures, kept: set<Id>, sem: Sem, args: seq<int>, n: nat)
    requires WellFormedFunc(f) && NeedsClosed(f, pure, kept) && Swept(f, f', pure, kept) && Transparent(sem, pure)
    ensures MachinesAgree(f, pure, kept, Run(f, sem, args, n), Run(f', sem, args, n))
    decreases n
  {
    hide NeedsClosed, Transparent, RunBlock, DefinedIn;
    if n > 0 {
      RunAgrees(f, f', pure, kept, sem, args, n - 1);
      BlockAgrees(f, f', pure, kept, sem, args, Run(f, sem, args, n - 1), Run(f', sem, args, n - 1));
    }
  }

  /** Sweeping cannot be seen. */
  lemma SweptSeenAs(f: Func, f': Func, pure: Pures, kept: set<Id>)
    requires WellFormedFunc(f) && NeedsClosed(f, pure, kept) && Swept(f, f', pure, kept)
    ensures SeenAs(pure, f, f')
  {
    hide NeedsClosed, Swept, Run, Transparent, WellFormed;
    forall sem: Sem, args: seq<int>, n: nat | Transparent(sem, pure) ensures SameSeen(pure, Run(f, sem, args, n), Run(f', sem, args, n)) {
      RunAgrees(f, f', pure, kept, sem, args, n);
    }
  }
}
