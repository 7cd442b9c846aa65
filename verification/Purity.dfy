/** Whole programs: what a call does when it runs a function of the program, and why nobody sees
    the calls of functions that were found to be pure. */
module Purity {
  import opened Cfg
  import opened Ir
  import opened Ssa
  import opened Marking
  import opened Hoisting
  import Info = FunctionInfo

  /** The memory, and the calls of functions without a body so far. */
  datatype State = State(mem: map<int, int>, outside: seq<(int, seq<int>)>)

  /** The functions with a body, which addresses the frame of a call at some depth has, what operations
      give at some depth, and what the functions without a body do. */
  datatype Program = Program(
    funcs: map<int, Func>,
    frame: (nat, int) -> bool,
    pure: (nat, Opcode, seq<int>) -> int,
    extern: (State, int, seq<int>) -> (int, State))

  /** Arrays lie in the frame of their call, and element addresses stay in the frame of their array. */
  ghost predicate FramesOk(p: Program) {
    && (forall d: nat, site, vs :: p.frame(d, p.pure(d, Alloca(site), vs)))
    && forall d: nat, vs: seq<int> | |vs| > 0 && p.frame(d, vs[0]) :: p.frame(d, p.pure(d, Gep, vs))
  }

  // ----- running -----

  ghost function Stored(w: State, vs: seq<int>): State {
    if |vs| == 2 then w.(mem := w.mem[vs[1] := vs[0]]) else w
  }

  ghost function Loaded(w: State, vs: seq<int>): int {
    if |vs| == 1 && vs[0] in w.mem then w.mem[vs[0]] else 0
  }

  /** The memory after a call at depth d: its frame is as it was. */
  ghost function Popped(p: Program, d: nat, w: State, w': State): State {
    State(map a | a in w.mem.Keys + w'.mem.Keys && (if p.frame(d, a) then a in w.mem else a in w'.mem) ::
            if p.frame(d, a) then w.mem[a] else w'.mem[a],
          w'.outside)
  }

  /** What an event changes. */
  ghost function Effect(p: Program, d: nat, fuel: nat, w: State, e: Event): State
    decreases fuel, 2, 0
  {
    match e.op
    case StorePtr => Stored(w, e.args)
    case Call(c) => CallOf(p, d, fuel, w, c, e.args).1
    case _ => w
  }

  ghost function Replay(p: Program, d: nat, fuel: nat, w: State, events: seq<Event>): State
    decreases fuel, 3, |events|
  {
    if events == [] then w
    else Effect(p, d, fuel, Replay(p, d, fuel, w, events[..|events| - 1]), events[|events| - 1])
  }

  /** What loads and calls give. */
  ghost function Given(p: Program, d: nat, fuel: nat, w: State, op: Opcode, vs: seq<int>): int
    decreases fuel, 2, 0
  {
    match op
    case LoadPtr => Loaded(w, vs)
    case Call(c) => CallOf(p, d, fuel, w, c, vs).0
    case _ => 0
  }

  /** The meaning of operations in a call at depth d that finds the memory w. */
  ghost function SemAt(p: Program, d: nat, fuel: nat, w: State): Sem
    decreases fuel, 4, 0
  {
    Sem((op, vs) => p.pure(d, op, vs), (events, op, vs) => Given(p, d, fuel, Replay(p, d, fuel, w, events), op, vs))
  }

  /** The result of a call and the state after it; fuel bounds how deep calls go and how long each runs. */
  ghost function CallOf(p: Program, d: nat, fuel: nat, w: State, c: int, args: seq<int>): (int, State)
    decreases fuel, 1, 0
  {
    if c !in p.funcs then p.extern(w, c, args)
    else if fuel == 0 then (0, w)
    else
      var m := Run(p.funcs[c], SemAt(p, d + 1, fuel - 1, w), args, fuel);
      (if m.Returned? && m.val.Some? then m.val.value else 0, Popped(p, d + 1, w, Replay(p, d + 1, fuel - 1, w, m.regs.events)))
  }

  // ----- what purity looks at -----

  ghost predicate DefinedBy(f: Func, id: Id, instr: Instr) {
    exists b, i :: DefinedAt(f, id, b, i) && f.body[b][i] == instr
  }

  /** The operand is followed like this. */
  ghost predicate AddressIs(f: Func, v: Val, a: Info.Address)
    decreases a
  {
    match a
    case OfAlloca => v.Res? && exists instr :: DefinedBy(f, v.id, instr) && instr.Op? && instr.op.Alloca?
    case OfGep(base) => v.Res? && exists instr :: DefinedBy(f, v.id, instr) && instr.Op? && instr.op.Gep? && |instr.args| > 0 && AddressIs(f, instr.args[0], base)
    case OfLoad => v.Res? && exists instr :: DefinedBy(f, v.id, instr) && (instr.Load? || (instr.Op? && instr.op.LoadPtr?))
    case OfOther(pointers) => v.Res? && pointers == []
    case NoInstruction => !v.Res?
  }

  ghost predicate InstrKnown(f: Func, c: int, p: Info.Program, instr: Instr)
    requires c in p
  {
    match instr
    case Load(_, _) => true
    case Store(_, _) => true
    case Op(_, op, vs) =>
      match op
      case LoadPtr => |vs| == 1 && exists a :: AddressIs(f, vs[0], a) && Info.LoadFrom(a) in p[c].insts
      case StorePtr => |vs| == 2 && exists a :: AddressIs(f, vs[1], a) && Info.StoreTo(a) in p[c].insts
      case Call(callee) => callee in p && c in p[callee].users
      case _ => true
  }

  /** The program as the purity analysis sees it: the loads, stores and calls of every body. */
  ghost predicate Describes(funcs: map<int, Func>, p: Info.Program) {
    && Info.UsersKnown(p) && (forall c | c in p && c !in funcs :: p[c].isDeclaration)
    && forall c | c in funcs ::
         && c in p && WellFormedFunc(funcs[c]) && SsaForm(funcs[c])
         && forall b, i | b in funcs[c].graph.blocks && 0 <= i < |funcs[c].body[b]| :: InstrKnown(funcs[c], c, p, funcs[c].body[b][i])
  }

  ghost predicate IsPure(p: Info.Program, c: int) {
    c in p && !Info.CallsImpure(p, c)
  }

  // ----- addresses of the own frame -----

  ghost predicate Local(f: Func, v: Val) {
    exists a :: AddressIs(f, v, a) && Info.GetFirstAddr(a).OfAlloca?
  }

  /** What an own address is: an array, or an element address of an own address. */
  lemma LocalFrom(f: Func, v: Val)
    requires Local(f, v)
    ensures v.Res? && exists instr :: DefinedBy(f, v.id, instr) && instr.Op? && (instr.op.Alloca? || (instr.op.Gep? && |instr.args| > 0 && Local(f, instr.args[0])))
  {
    hide DefinedBy;
    var a :| AddressIs(f, v, a) && Info.GetFirstAddr(a).OfAlloca?;
    match a
    case OfAlloca =>
    case OfGep(base) =>
      var instr :| DefinedBy(f, v.id, instr) && instr.Op? && instr.op.Gep? && |instr.args| > 0 && AddressIs(f, instr.args[0], base);
      assert Local(f, instr.args[0]);
    case _ =>
  }

  ghost predicate OwnAddresses(p: Program, d: nat, f: Func, env: map<Id, int>) {
    forall id | id in env && Local(f, Res(id)) :: p.frame(d, env[id])
  }

  /** What is available has been computed. */
  ghost predicate Held(f: Func, env: map<Id, int>, b: Block, i: int) {
    forall id | Available(f, id, b, i) :: id in env
  }

  /** Events that nobody but the call itself can notice. */
  ghost predicate QuietEvent(p: Program, q: Info.Program, d: nat, e: Event) {
    match e.op
    case LoadPtr => true
    case StorePtr => |e.args| == 2 && p.frame(d, e.args[1])
    case Call(c) => IsPure(q, c)
    case _ => false
  }

  ghost predicate QuietEvents(p: Program, q: Info.Program, d: nat, events: seq<Event>) {
    forall e | e in events :: QuietEvent(p, q, d, e)
  }

  ghost predicate QuietRegs(p: Program, q: Info.Program, d: nat, f: Func, r: Regs, b: Block, i: int) {
    OwnAddresses(p, d, f, r.env) && Held(f, r.env, b, i) && QuietEvents(p, q, d, r.events)
  }

  ghost predicate QuietMachine(p: Program, q: Info.Program, d: nat, f: Func, m: Machine) {
    match m
    case Running(b, r) => b in f.graph.blocks && Reachable(f.graph, b) && QuietRegs(p, q, d, f, r, b, 0)
    case Returned(_, r) => QuietEvents(p, q, d, r.events)
  }

  /** A function of the program that was found to be pure. */
  ghost predicate QuietFunc(p: Program, q: Info.Program, c: int) {
    c in p.funcs && c in q && IsPure(q, c) && Describes(p.funcs, q) && FramesOk(p)
  }

  lemma OwnAddress(p: Program, d: nat, f: Func, args: seq<int>, env: map<Id, int>, b: Block, i: int, v: Val)
    requires IdsApart(f) && Local(f, v) && InScope(f, v, b, i) && Held(f, env, b, i) && OwnAddresses(p, d, f, env)
    ensures p.frame(d, Eval(args, env, v))
  {
    hide AddressIs, Local, Available;
    LocalFrom(f, v);
    var instr :| DefinedBy(f, v.id, instr);
    assert !PhiInScope(f, v.id, b);
  }

  /** The new value, if it is an own address, is one of the frame. */
  lemma OwnNext(p: Program, d: nat, f: Func, sem: Sem, args: seq<int>, r: Regs, b: Block, i: nat)
    requires FramesOk(p) && IdsApart(f) && b in f.graph.blocks && b in f.body && i < |f.body[b]| && f.body[b][i].Op? && Local(f, Res(f.body[b][i].id))
    requires forall op, vs :: sem.pure(op, vs) == p.pure(d, op, vs)
    requires forall v | v in Uses(f.body[b][i]) :: InScope(f, v, b, i)
    requires Held(f, r.env, b, i) && OwnAddresses(p, d, f, r.env)
    ensures var next := Step(sem, args, r, f.body[b][i]); f.body[b][i].id in next.env && p.frame(d, next.env[f.body[b][i].id])
  {
    hide Local, Available, Held, OwnAddresses, InScope;
    var now := f.body[b][i];
    LocalFrom(f, Res(now.id));
    var instr :| DefinedBy(f, now.id, instr) && instr.Op? && (instr.op.Alloca? || (instr.op.Gep? && |instr.args| > 0 && Local(f, instr.args[0])));
    assert DefinedAt(f, now.id, b, i);
    assert instr == now;
    if now.op.Gep? {
      assert now.args[0] in Uses(now);
      OwnAddress(p, d, f, args, r.env, b, i, now.args[0]);
    }
  }

  lemma StepOwn(p: Program, d: nat, f: Func, sem: Sem, args: seq<int>, r: Regs, b: Block, i: nat)
    requires FramesOk(p) && IdsApart(f) && b in f.graph.blocks && b in f.body && i < |f.body[b]|
    requires forall op, vs :: sem.pure(op, vs) == p.pure(d, op, vs)
    requires forall v | v in Uses(f.body[b][i]) :: InScope(f, v, b, i)
    requires Held(f, r.env, b, i) && OwnAddresses(p, d, f, r.env)
    ensures var next := Step(sem, args, r, f.body[b][i]); OwnAddresses(p, d, f, next.env) && Held(f, next.env, b, i + 1)
  {
    hide Local, Available, InScope, FramesOk;
    var now := f.body[b][i];
    var next := Step(sem, args, r, now);
    forall id | Available(f, id, b, i + 1) ensures id in next.env {
      AvailableNext(f, id, b, i);
    }
    if now.Load? {
      LoadNotOwn(f, b, i);
    } else if now.Op? && Local(f, Res(now.id)) {
      OwnNext(p, d, f, sem, args, r, b, i);
    }
  }

  lemma LoadNotOwn(f: Func, b: Block, i: nat)
    requires IdsApart(f) && b in f.graph.blocks && b in f.body && i < |f.body[b]| && f.body[b][i].Load?
    ensures !Local(f, Res(f.body[b][i].id))
  {
    hide Local;
    var now := f.body[b][i];
    assert DefinedAt(f, now.id, b, i);
    if Local(f, Res(now.id)) {
      LocalFrom(f, Res(now.id));
    }
  }

  lemma StepQuiet(p: Program, q: Info.Program, d: nat, c: int, sem: Sem, args: seq<int>, r: Regs, b: Block, i: nat)
    requires c in p.funcs && QuietFunc(p, q, c) && b in p.funcs[c].graph.blocks && i < |p.funcs[c].body[b]|
    requires forall v | v in Uses(p.funcs[c].body[b][i]) :: InScope(p.funcs[c], v, b, i)
    requires QuietRegs(p, q, d, p.funcs[c], r, b, i)
    ensures QuietEvents(p, q, d, Step(sem, args, r, p.funcs[c].body[b][i]).events)
  {
    hide Available, InScope, FramesOk, SsaForm, Held, OwnAddresses, AddressIs, IsPure, IdsApart;
    var f := p.funcs[c];
    FuncFormed(p, q, c);
    SsaApart(f);
    var now := f.body[b][i];
    var next := Step(sem, args, r, now);
    if now.Op? && !IsPureOp(now.op) {
      var e := Event(now.op, EvalAll(args, r.env, now.args));
      assert next.events == r.events + [e];
      QuietInstr(p, q, c, b, i);
      if now.op.StorePtr? {
        assert now.args[1] in Uses(now);
        OwnAddress(p, d, f, args, r.env, b, i, now.args[1]);
      }
      assert QuietEvent(p, q, d, e);
    }
  }

  lemma SsaApart(f: Func)
    requires WellFormedFunc(f) && SsaForm(f)
    ensures IdsApart(f)
  {
  }

  /** Stores of a pure function go to its frame, and its calls are of pure functions. */
  lemma QuietInstr(p: Program, q: Info.Program, c: int, b: Block, i: nat)
    requires c in p.funcs && QuietFunc(p, q, c) && b in p.funcs[c].graph.blocks && i < |p.funcs[c].body[b]| && p.funcs[c].body[b][i].Op?
    ensures p.funcs[c].body[b][i].op.StorePtr? ==> |p.funcs[c].body[b][i].args| == 2 && Local(p.funcs[c], p.funcs[c].body[b][i].args[1])
    ensures p.funcs[c].body[b][i].op.Call? ==> IsPure(q, p.funcs[c].body[b][i].op.callee)
  {
    hide AddressIs, SsaForm, Info.CallsImpure, FramesOk, WellFormed, Info.StartsAtAlloca, Info.GetFirstAddr;
    var f := p.funcs[c];
    var now := f.body[b][i];
    assert InstrKnown(f, c, q, now);
    if now.op.StorePtr? {
      var a :| AddressIs(f, now.args[1], a) && Info.StoreTo(a) in q[c].insts;
      Info.FirstAddrExact(a);
      if !Info.StartsAtAlloca(a) {
        assert Info.Accesses(q[c], a);
        Info.OutCalls(q, c);
      }
    } else if now.op.Call? {
      if Info.CallsImpure(q, now.op.callee) {
        Info.CallerCalls(q, now.op.callee, c);
      }
    }
  }

  lemma {:induction false} StepsQuiet(p: Program, q: Info.Program, d: nat, c: int, sem: Sem, args: seq<int>, r: Regs, b: Block, k: nat)
    requires c in p.funcs && QuietFunc(p, q, c) && b in p.funcs[c].graph.blocks && Reachable(p.funcs[c].graph, b) && k <= |p.funcs[c].body[b]|
    requires forall op, vs :: sem.pure(op, vs) == p.pure(d, op, vs)
    requires QuietRegs(p, q, d, p.funcs[c], r, b, 0)
    ensures QuietRegs(p, q, d, p.funcs[c], Steps(sem, args, r, p.funcs[c].body[b][..k]), b, k)
    decreases k
  {
    hide QuietFunc, Held, OwnAddresses, QuietEvents, InScope, Step, Reachable;
    var f := p.funcs[c];
    QuietParts(p, q, c, b);
    if k > 0 {
      StepsQuiet(p, q, d, c, sem, args, r, b, k - 1);
      var s := f.body[b][..k];
      assert s[..|s| - 1] == f.body[b][..k - 1] && s[|s| - 1] == f.body[b][k - 1];
      var before := Steps(sem, args, r, f.body[b][..k - 1]);
      StepQuiet(p, q, d, c, sem, args, before, b, k - 1);
      StepOwn(p, d, f, sem, args, before, b, k - 1);
    }
  }

  lemma FuncFormed(p: Program, q: Info.Program, c: int)
    requires c in p.funcs && QuietFunc(p, q, c)
    ensures WellFormedFunc(p.funcs[c]) && SsaForm(p.funcs[c])
  {
    hide InstrKnown, FramesOk, IsPure, WellFormedFunc, SsaForm;
  }

  lemma QuietParts(p: Program, q: Info.Program, c: int, b: Block)
    requires c in p.funcs && QuietFunc(p, q, c) && b in p.funcs[c].graph.blocks && Reachable(p.funcs[c].graph, b)
    ensures FramesOk(p) && WellFormedFunc(p.funcs[c]) && SsaForm(p.funcs[c]) && IdsApart(p.funcs[c])
    ensures b in p.funcs[c].body && forall i, v | 0 <= i < |p.funcs[c].body[b]| && v in Uses(p.funcs[c].body[b][i]) :: InScope(p.funcs[c], v, b, i)
  {
    hide IdsApart, TermReady, EdgeReady, InstrKnown, FramesOk, IsPure, WellFormed;
    assert BodyReady(p.funcs[c], b);
  }

  /** Phis define no own addresses. */
  lemma {:induction false} PhisOwn(p: Program, d: nat, f: Func, args: seq<int>, env: map<Id, int>, phis: seq<Phi>, t: Block, from: Block, k: nat)
    requires IdsApart(f) && t in f.graph.blocks && t in f.phis && phis == f.phis[t] && k <= |phis| && OwnAddresses(p, d, f, env)
    ensures OwnAddresses(p, d, f, EnterPhis(args, env, phis[..k], from)) && forall id | id in env :: id in EnterPhis(args, env, phis[..k], from)
    decreases k
  {
    hide Local;
    if k > 0 {
      PhisOwn(p, d, f, args, env, phis, t, from, k - 1);
      var s := phis[..k];
      assert s[..|s| - 1] == phis[..k - 1] && s[|s| - 1] == phis[k - 1];
      assert PhiAt(f, phis[k - 1].id, t, k - 1);
      PhiNotOwn(f, phis[k - 1].id, t, k - 1);
    }
  }

  lemma PhiNotOwn(f: Func, id: Id, b: Block, i: int)
    requires IdsApart(f) && PhiAt(f, id, b, i)
    ensures !Local(f, Res(id))
  {
    hide Local;
    if Local(f, Res(id)) {
      LocalFrom(f, Res(id));
    }
  }

  lemma JumpQuiet(p: Program, q: Info.Program, d: nat, c: int, args: seq<int>, r: Regs, b: Block, t: Block)
    requires c in p.funcs && QuietFunc(p, q, c) && b in p.funcs[c].graph.blocks && Reachable(p.funcs[c].graph, b) && b in p.funcs[c].body && b in p.funcs[c].term
    requires t in Targets(p.funcs[c].term[b]) && QuietRegs(p, q, d, p.funcs[c], r, b, |p.funcs[c].body[b]|)
    ensures QuietMachine(p, q, d, p.funcs[c], Jump(p.funcs[c], args, r, b, t))
  {
    hide QuietFunc, OwnAddresses, QuietEvents, InScope, Reachable, Available, SsaForm, IdsApart;
    var f := p.funcs[c];
    QuietParts(p, q, c, b);
    TargetEdge(f, b, t);
    assert t in f.graph.blocks && t in f.phis;
    assert f.phis[t][..|f.phis[t]|] == f.phis[t];
    PhisOwn(p, d, f, args, r.env, f.phis[t], t, b, |f.phis[t]|);
    forall id | Available(f, id, t, 0) ensures id in r.env {
      AvailableBefore(f, id, b, t);
    }
  }

  lemma BlockQuiet(p: Program, q: Info.Program, d: nat, c: int, sem: Sem, args: seq<int>, m: Machine)
    requires c in p.funcs && QuietFunc(p, q, c) && QuietMachine(p, q, d, p.funcs[c], m) && forall op, vs :: sem.pure(op, vs) == p.pure(d, op, vs)
    ensures QuietMachine(p, q, d, p.funcs[c], RunBlock(p.funcs[c], sem, args, m))
  {
    hide QuietFunc, QuietRegs, Reachable, SsaForm, Jump, Steps;
    var f := p.funcs[c];
    if m.Running? && m.block in f.body && m.block in f.term {
      var b := m.block;
      var r := Steps(sem, args, m.regs, f.body[b]);
      QuietParts(p, q, c, b);
      assert f.body[b][..|f.body[b]|] == f.body[b];
      StepsQuiet(p, q, d, c, sem, args, m.regs, b, |f.body[b]|);
      forall t | t in Targets(f.term[b]) ensures QuietMachine(p, q, d, f, Jump(f, args, r, b, t)) {
        JumpQuiet(p, q, d, c, args, r, b, t);
      }
      RegsEvents(p, q, d, f, r, b, |f.body[b]|);
    }
  }

  lemma RegsEvents(p: Program, q: Info.Program, d: nat, f: Func, r: Regs, b: Block, i: int)
    requires QuietRegs(p, q, d, f, r, b, i)
    ensures QuietEvents(p, q, d, r.events)
  {
  }

  lemma {:induction false} RunQuiet(p: Program, q: Info.Program, d: nat, c: int, sem: Sem, args: seq<int>, n: nat)
    requires c in p.funcs && QuietFunc(p, q, c) && forall op, vs :: sem.pure(op, vs) == p.pure(d, op, vs)
    ensures QuietMachine(p, q, d, p.funcs[c], Run(p.funcs[c], sem, args, n))
    decreases n
  {
    hide QuietFunc, RunBlock;
    if n == 0 {
      StartQuiet(p, q, d, c);
    } else {
      RunQuiet(p, q, d, c, sem, args, n - 1);
      BlockQuiet(p, q, d, c, sem, args, Run(p.funcs[c], sem, args, n - 1));
    }
  }

  lemma StartQuiet(p: Program, q: Info.Program, d: nat, c: int)
    requires c in p.funcs && QuietFunc(p, q, c)
    ensures QuietMachine(p, q, d, p.funcs[c], Start(p.funcs[c]))
  {
    hide QuietFunc, Available, SsaForm;
    var f := p.funcs[c];
    EntryReachable(f.graph);
    EntryOf(p, q, c);
    forall id ensures !Available(f, id, f.graph.entry, 0) {
      NothingAtEntry(f, id);
    }
  }

  lemma EntryOf(p: Program, q: Info.Program, c: int)
    requires c in p.funcs && QuietFunc(p, q, c)
    ensures p.funcs[c].graph.entry in p.funcs[c].graph.blocks
  {
    hide SsaForm, InstrKnown, FramesOk, IsPure;
  }

  // ----- calls of pure functions -----

  /** Outside of the frame of the call nothing is different. */
  ghost predicate SameBeyond(p: Program, d: nat, w: State, w': State) {
    w'.outside == w.outside && forall a | !p.frame(d, a) :: (a in w.mem <==> a in w'.mem) && (a in w.mem ==> w'.mem[a] == w.mem[a])
  }

  lemma {:induction false} ReplayQuiet(p: Program, q: Info.Program, d: nat, fuel: nat, w: State, events: seq<Event>)
    requires Describes(p.funcs, q) && FramesOk(p) && QuietEvents(p, q, d, events)
    ensures SameBeyond(p, d, w, Replay(p, d, fuel, w, events))
    decreases fuel, 1, |events|
  {
    hide Describes, FramesOk, IsPure;
    if events != [] {
      var init, last := events[..|events| - 1], events[|events| - 1];
      assert forall e | e in init :: e in events;
      ReplayQuiet(p, q, d, fuel, w, init);
      assert QuietEvent(p, q, d, last);
      if last.op.Call? {
        QuietCall(p, q, d, fuel, Replay(p, d, fuel, w, init), last.op.callee, last.args);
      }
    }
  }

  /** A call of a pure function leaves everything as it is. */
  lemma {:induction false} QuietCall(p: Program, q: Info.Program, d: nat, fuel: nat, w: State, c: int, args: seq<int>)
    requires Describes(p.funcs, q) && FramesOk(p) && IsPure(q, c)
    ensures CallOf(p, d, fuel, w, c, args).1 == w
    decreases fuel, 0, 0
  {
    hide FramesOk, Run;
    HasBody(p, q, c);
    if fuel > 0 {
      var sem := SemAt(p, d + 1, fuel - 1, w);
      RunQuiet(p, q, d + 1, c, sem, args, fuel);
      var m := Run(p.funcs[c], sem, args, fuel);
      ReplayQuiet(p, q, d + 1, fuel - 1, w, m.regs.events);
      PoppedSame(p, d + 1, w, Replay(p, d + 1, fuel - 1, w, m.regs.events));
    }
  }

  lemma HasBody(p: Program, q: Info.Program, c: int)
    requires Describes(p.funcs, q) && IsPure(q, c)
    ensures c in p.funcs
  {
    hide SsaForm, InstrKnown, Info.CallsImpure;
    if c !in p.funcs {
      Info.OutCalls(q, c);
    }
  }

  lemma PoppedSame(p: Program, d: nat, w: State, w': State)
    requires SameBeyond(p, d, w, w')
    ensures Popped(p, d, w, w') == w
  {
    var m := Popped(p, d, w, w').mem;
    assert forall a :: (a in m <==> a in w.mem) && (a in m ==> m[a] == w.mem[a]);
    assert m == w.mem;
  }

  // ----- nobody sees them -----

  ghost function PureOnes(p: Info.Program): set<int> {
    set c | c in p && IsPure(p, c)
  }

  /** Loads and calls of pure functions change nothing. */
  lemma {:induction false} ReplayVisible(p: Program, q: Info.Program, d: nat, fuel: nat, w: State, events: seq<Event>)
    requires Describes(p.funcs, q) && FramesOk(p)
    ensures Replay(p, d, fuel, w, Visible(PureOnes(q), events)) == Replay(p, d, fuel, w, events)
    decreases |events|
  {
    hide Describes, FramesOk, IsPure;
    if events != [] {
      var init, last := events[..|events| - 1], events[|events| - 1];
      ReplayVisible(p, q, d, fuel, w, init);
      var seen := Visible(PureOnes(q), init);
      if Seen(PureOnes(q), last) {
        assert (seen + [last])[..|seen|] == seen;
      } else {
        assert seen + [] == seen;
        if last.op.Call? {
          QuietCall(p, q, d, fuel, Replay(p, d, fuel, w, init), last.op.callee, last.args);
        }
      }
    }
  }

  /** In a whole program, what loads and calls give does not depend on calls of functions that were found to be pure. */
  lemma PureIsTransparent(p: Program, q: Info.Program, d: nat, fuel: nat, w: State)
    requires Describes(p.funcs, q) && FramesOk(p)
    ensures Transparent(SemAt(p, d, fuel, w), PureOnes(q))
  {
    hide Describes, FramesOk, Replay, PureOnes;
    var sem := SemAt(p, d, fuel, w);
    forall events, op, vs ensures sem.outside(events, op, vs) == sem.outside(Visible(PureOnes(q), events), op, vs) {
      ReplayVisible(p, q, d, fuel, w, events);
    }
  }

  /** A function that has lost instructions nobody needs gives the same result in the program, and leaves the same memory. */
  lemma CleanedInProgram(p: Program, q: Info.Program, d: nat, fuel: nat, w: State, f: Func, f': Func, args: seq<int>, n: nat)
    requires Describes(p.funcs, q) && FramesOk(p) && SeenAs(PureOnes(q), f, f')
    ensures var sem := SemAt(p, d, fuel, w);
            var m, m' := Run(f, sem, args, n), Run(f', sem, args, n);
            && (m.Running? <==> m'.Running?) && (m.Returned? ==> m'.val == m.val)
            && Replay(p, d, fuel, w, m'.regs.events) == Replay(p, d, fuel, w, m.regs.events)
  {
    hide Describes, FramesOk, Replay, PureOnes, Run, Visible, Transparent;
    var sem := SemAt(p, d, fuel, w);
    PureIsTransparent(p, q, d, fuel, w);
    var m, m' := Run(f, sem, args, n), Run(f', sem, args, n);
    assert SameSeen(PureOnes(q), m, m');
    ReplayVisible(p, q, d, fuel, w, m.regs.events);
    ReplayVisible(p, q, d, fuel, w, m'.regs.events);
  }
}
