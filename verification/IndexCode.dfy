/** Array elements and calls: the check for negative indices with its early exit,
    element addresses, loads and stores through them, and calls. */
module IndexCode {
  import opened Common
  import opened Cfg
  import opened Ir
  import opened Building
  import opened Translation
  import opened ExprCode
  import Ast

  /** A created block that nothing has been put in yet. */
  ghost predicate Fresh(c: Code, b: Block, s: set<Id>) {
    b in c.body && c.body[b] == [] && b !in c.term && b in c.avail && c.avail[b] == s
  }

  lemma FreshKept(c: Code, c': Code, b: Block, s: set<Id>)
    requires CodeOk(c) && Grew(c, c') && Fresh(c, b, s) && b != c.cur
    ensures Fresh(c', b, s)
  {
  }

  lemma FreshEmit(c: Code, i: Instr, b: Block, s: set<Id>)
    requires Fresh(c, b, s) && b != c.cur
    ensures Fresh(Append(c, i), b, s)
  {
  }

  /** New blocks. */
  lemma CreateStage(base: Code, c: Code, env: Env, n: nat)
    requires Stage(base, c, env)
    ensures CodeOk(c) && Stage(base, Create(c, n), env) && AvailNow(Create(c, n)) == AvailNow(c)
    ensures forall b | c.count <= b < c.count + n :: Fresh(Create(c, n), b, AvailNow(c)) && b != c.cur
    ensures forall v | Usable(c, v) :: Usable(Create(c, n), v)
  {
    hide Certified, AvailNow, EnvOk, EnvAvail, Create;
    CreateOk(c, n);
    CreateParts(c, n);
    GrewTrans(base, c, Create(c, n));
  }

  lemma CreateParts(c: Code, n: nat)
    requires CodeOk(c)
    ensures var d := Create(c, n); d.nextId == c.nextId && d.nextSlot == c.nextSlot && d.cur == c.cur && d.term == c.term
    ensures forall b | c.count <= b < c.count + n :: Fresh(Create(c, n), b, AvailNow(c)) && b != c.cur
  {
    hide AvailNow;
  }

  /** Where a fresh block becomes the current one. */
  lemma AvailFresh(c: Code, b: Block, s: set<Id>)
    requires CodeOk(c) && Fresh(c, b, s)
    ensures CodeOk(c.(cur := b)) && AvailNow(c.(cur := b)) == s
  {
    assert c.body[b][..0] == [];
    assert DefinedIn([]) == {};
  }

  /** The current block ends; the next one is fresh. */
  lemma BranchStage(base: Code, c: Code, env: Env, t: Term, next: Block, s: set<Id>)
    requires Stage(base, c, env) && Fresh(c, next, s) && next != c.cur && base.count <= next
    requires forall b | b in Targets(t) :: base.count <= b < c.count && b in c.avail && c.avail[b] <= AvailNow(c)
    requires UsesAvail(AvailNow(c), TermUses(t))
    requires AvailNow(base) <= s && EnvAvail(env, s) && base.cur !in base.term
    ensures Stage(base, Branch(c, t, next), env) && AvailNow(Branch(c, t, next)) == s
  {
    hide Certified, EnvOk, EnvAvail, AvailNow, UsesAvail;
    BranchOk(base, c, t, next);
    BranchCertified(c, t, next);
    AvailBranch(c, t, next, s);
  }

  lemma AvailBranch(c: Code, t: Term, next: Block, s: set<Id>)
    requires CodeOk(c) && CodeOk(Branch(c, t, next)) && Fresh(c, next, s)
    ensures AvailNow(Branch(c, t, next)) == s
  {
    assert c.body[next][..0] == [];
    assert DefinedIn([]) == {};
  }

  lemma FreshBranch(c: Code, t: Term, next: Block, b: Block, s: set<Id>)
    requires Fresh(c, b, s) && b != c.cur
    ensures Fresh(Branch(c, t, next), b, s)
  {
  }

  // ----- the check -----

  function DefaultRet(isVoid: bool): Term {
    Ret(if isVoid then None else Some(Const(0)))
  }

  /** The code of the check, step by step: compare, branch, report and return, go on. */
  ghost function Compared(c: Code, v: Val): Code
    requires CodeOk(c)
  {
    Append(Create(c, 2), Op(c.nextId, Icmp(Lt), [v, Const(0)]))
  }

  ghost function Checked(c: Code, v: Val): Code
    requires CodeOk(c)
  {
    Branch(Compared(c, v), CondBr(Res(c.nextId), c.count, c.count + 1), c.count)
  }

  ghost function Reported(c: Code, v: Val): Code
    requires CodeOk(c)
  {
    Append(Checked(c, v), Op(c.nextId + 1, Call(Ast.NEG_IDX_EXCEPT), []))
  }

  ghost function Guarded(c: Code, v: Val, isVoid: bool): Code
    requires CodeOk(c)
  {
    Branch(Reported(c, v), DefaultRet(isVoid), c.count + 1)
  }

  lemma GoodFacts(base: Code, c: Code, env: Env)
    requires Stage(base, c, env)
    ensures CodeOk(base) && CodeOk(c) && EnvAvail(env, AvailNow(c)) && AvailNow(base) <= AvailNow(c)
    ensures base.count <= c.count && 0 <= c.cur < c.count && c.cur !in c.term && 0 < base.count
  {
  }

  lemma CheckedStages(base: Code, c: Code, env: Env, v: Val)
    requires Stage(base, c, env) && Usable(c, v) && base.cur !in base.term
    ensures CodeOk(c) && Stage(base, Compared(c, v), env) && Stage(base, Checked(c, v), env)
    ensures Create(c, 2).nextId == c.nextId && Checked(c, v).nextId == c.nextId + 1 && Checked(c, v).count == c.count + 2
    ensures Checked(c, v).cur == c.count
    ensures Fresh(Compared(c, v), c.count, AvailNow(c)) && Fresh(Checked(c, v), c.count + 1, AvailNow(c))
  {
    hide Certified, EnvOk, AvailNow, EnvAvail, Create, Grew;
    GoodFacts(base, c, env);
    var x, k := c.count, c.count + 1;
    CreateStage(base, c, env, 2);
    CreateParts(c, 2);
    var c2 := Create(c, 2);
    var i := Op(c.nextId, Icmp(Lt), [v, Const(0)]);
    Emit(base, c2, env, i);
    AppendAvail(c2, i);
    FreshEmit(c2, i, x, AvailNow(c));
    FreshEmit(c2, i, k, AvailNow(c));
    CreateCount(c, 2);
    BranchStage(base, Compared(c, v), env, CondBr(Res(c.nextId), x, k), x, AvailNow(c));
    FreshBranch(Compared(c, v), CondBr(Res(c.nextId), x, k), x, k, AvailNow(c));
  }

  lemma CreateCount(c: Code, n: nat)
    requires CodeOk(c)
    ensures Create(c, n).count == c.count + n
  {
  }

  lemma GuardStages(base: Code, c: Code, env: Env, v: Val, isVoid: bool)
    requires Stage(base, c, env) && Usable(c, v) && base.cur !in base.term
    ensures CodeOk(c) && Stage(base, Compared(c, v), env) && Stage(base, Checked(c, v), env) && Stage(base, Reported(c, v), env)
    ensures Stage(base, Guarded(c, v, isVoid), env) && Usable(Guarded(c, v, isVoid), v)
    ensures Create(c, 2).nextId == c.nextId && Checked(c, v).nextId == c.nextId + 1
    ensures Fresh(Compared(c, v), c.count, AvailNow(c)) && Fresh(Reported(c, v), c.count + 1, AvailNow(c))
    ensures AvailNow(Guarded(c, v, isVoid)) == AvailNow(c)
  {
    hide Stage, CodeOk, AvailNow, EnvAvail, Compared, Create;
    GoodFacts(base, c, env);
    CheckedStages(base, c, env, v);
    var i := Op(c.nextId + 1, Call(Ast.NEG_IDX_EXCEPT), []);
    Emit(base, Checked(c, v), env, i);
    FreshEmit(Checked(c, v), i, c.count + 1, AvailNow(c));
    BranchStage(base, Reported(c, v), env, DefaultRet(isVoid), c.count + 1, AvailNow(c));
  }

  // ----- running the check -----

  /** Coming to where only open blocks have been added is coming to the same place. */
  lemma ComesCreate(w: World, base: Code, c: Code, n: nat, env: Env, r: Regs, r1: Regs, scopes: Ast.Scopes, events: seq<Event>)
    requires CodeOk(base) && CodeOk(c) && Comes(w, base, c, env, r, r1, scopes, events)
    ensures CodeOk(Create(c, n)) && Comes(w, base, Create(c, n), env, r, r1, scopes, events)
  {
    hide Related, Reaches, KeepsEnv;
    CreateOk(c, n);
    assert Here(Create(c, n), r1) == Here(c, r1);
  }

  /** Taking a branch to a fresh block. */
  lemma ComesBranch(w: World, base: Code, c: Code, t: Term, next: Block, d: Code, env: Env, r: Regs, r1: Regs, scopes: Ast.Scopes, events: seq<Event>)
    requires CodeOk(base) && CodeOk(c) && CodeOk(d) && c.cur !in c.term && FinalOf(Branch(c, t, next), w.f)
    requires Comes(w, base, c, env, r, r1, scopes, events)
    requires d.body[d.cur] == [] && d.cur == TakenTarget(w, r1, t) && !t.Ret?
    ensures Comes(w, base, d, env, r, r1, scopes, events)
  {
    hide Related, Reaches, KeepsEnv;
    BranchHere(w, c, t, next, r1);
    ReachesOne(w, Here(c, r1));
    ReachesTrans(w, Here(base, r), Here(c, r1), Here(d, r1));
  }

  ghost function TakenTarget(w: World, r: Regs, t: Term): Block {
    match t
    case Br(b) => b
    case CondBr(v, b, d) => if Eval(w.args, r.env, v) != 0 then b else d
    case Ret(_) => 0
  }

  lemma LeavesRet(w: World, base: Code, c: Code, t: Term, next: Block, env: Env, r: Regs, r1: Regs, scopes: Ast.Scopes, events: seq<Event>)
    requires CodeOk(base) && CodeOk(c) && c.cur !in c.term && FinalOf(Branch(c, t, next), w.f) && t.Ret?
    requires Comes(w, base, c, env, r, r1, scopes, events)
    ensures Leaves(w, base, r, if t.val.Some? then Some(Eval(w.args, r1.env, t.val.value)) else None, events)
  {
    hide Related, Reaches, KeepsEnv;
    BranchHere(w, c, t, next, r1);
    ReachesOne(w, Here(c, r1));
    ReachesTrans(w, Here(base, r), Here(c, r1), Micro(w, Here(c, r1)));
  }

  /** The check has been passed, or has ended the function. */
  ghost predicate GuardRun(w: World, base: Code, c: Code, env: Env, isVoid: bool, r: Regs, r1: Regs, scopes: Ast.Scopes,
                           events: seq<Event>, v: Val, x: int)
    requires CodeOk(base) && CodeOk(c) && CodeOk(Guarded(c, v, isVoid))
  {
    if x < 0 then Leaves(w, base, r, Ast.DefaultResult(isVoid), events + [Event(Call(Ast.NEG_IDX_EXCEPT), [])])
    else exists r' :: Comes(w, base, Guarded(c, v, isVoid), env, r, r', scopes, events) && KeepsEnv(r1, r', c.nextId)
  }

  lemma GuardFinal(base: Code, c: Code, env: Env, v: Val, isVoid: bool, f: Func)
    requires Stage(base, c, env) && Usable(c, v) && base.cur !in base.term
    requires CodeOk(c) && FinalOf(Guarded(c, v, isVoid), f)
    ensures FinalOf(Reported(c, v), f) && FinalOf(Checked(c, v), f) && FinalOf(Compared(c, v), f) && FinalOf(c, f)
  {
    hide Stage, CodeOk, FinalOf, Compared, Usable;
    GuardStages(base, c, env, v, isVoid);
    StageFacts(base, Reported(c, v), env);
    StageFacts(base, Checked(c, v), env);
    StageFacts(base, Compared(c, v), env);
    StageFacts(base, c, env);
    FinalBranch(Reported(c, v), DefaultRet(isVoid), c.count + 1, f);
    FinalAppend(Checked(c, v), Op(c.nextId + 1, Call(Ast.NEG_IDX_EXCEPT), []), f);
    FinalBranch(Compared(c, v), CondBr(Res(c.nextId), c.count, c.count + 1), c.count, f);
    ComparedFinal(c, v, f);
  }

  lemma ComparedFinal(c: Code, v: Val, f: Func)
    requires CodeOk(c) && c.cur !in c.term && FinalOf(Compared(c, v), f)
    ensures FinalOf(c, f) && FinalOf(Create(c, 2), f)
  {
    CreateOk(c, 2);
    FinalAppend(Create(c, 2), Op(c.nextId, Icmp(Lt), [v, Const(0)]), f);
    FinalBack(c, Create(c, 2), f);
  }

  lemma GuardRuns(w: World, base: Code, c: Code, env: Env, isVoid: bool, r: Regs, r1: Regs, scopes: Ast.Scopes, events: seq<Event>, v: Val)
    requires Stage(base, c, env) && Usable(c, v) && base.cur !in base.term && CodeOk(base) && CodeOk(c) && CodeOk(Guarded(c, v, isVoid))
    requires Comes(w, base, c, env, r, r1, scopes, events) && FinalOf(Guarded(c, v, isVoid), w.f) && Ast.Standard(w.sem)
    ensures GuardRun(w, base, c, env, isVoid, r, r1, scopes, events, v, Eval(w.args, r1.env, v))
  {
    hide Stage, CodeOk, EnvOk, EnvAvail, AvailNow, Comes, KeepsEnv, FinalOf, Related, Leaves, Eval, Usable;
    GuardStages(base, c, env, v, isVoid);
    GuardFinal(base, c, env, v, isVoid, w.f);
    StageFacts(base, c, env);
    StageFacts(base, Compared(c, v), env);
    StageFacts(base, Checked(c, v), env);
    StageFacts(base, Reported(c, v), env);
    CreateStage(base, c, env, 2);
    StageFacts(base, Create(c, 2), env);
    ComesCreate(w, base, c, 2, env, r, r1, scopes, events);
    EvalThree(w.args, r1.env, v, Const(0), v);
    EvalConst(w.args, r1.env, 0);
    var r2 := PureStep(w, base, Create(c, 2), env, r, r1, scopes, events, Icmp(Lt), [v, Const(0)]);
    var t := CondBr(Res(c.nextId), c.count, c.count + 1);
    if Eval(w.args, r1.env, v) < 0 {
      ComesBranch(w, base, Compared(c, v), t, c.count, Checked(c, v), env, r, r2, scopes, events);
      EvalNone(w.args, r2.env);
      var r3 := OutsideStep(w, base, Checked(c, v), env, r, r2, scopes, events, Call(Ast.NEG_IDX_EXCEPT), []);
      LeavesRet(w, base, Reported(c, v), DefaultRet(isVoid), c.count + 1, env, r, r3, scopes, events + [Event(Call(Ast.NEG_IDX_EXCEPT), [])]);
      EvalConst(w.args, r3.env, 0);
    } else {
      ComesBranch(w, base, Compared(c, v), t, c.count, Guarded(c, v, isVoid), env, r, r2, scopes, events);
    }
  }

  lemma EvalNone(args: seq<int>, env: map<Id, int>)
    ensures EvalAll(args, env, []) == []
  {
  }

  // ----- element addresses -----

  /** The code that computes the address, once the index has been checked. */
  function Located(g: Code, b: Binding, v: Val): Code {
    match b
    case PtrSlot(x) => Append(Append(g, Load(g.nextId, x)), Op(g.nextId + 1, Gep, [Res(g.nextId), v]))
    case ArrayBase(a) => Append(g, Op(g.nextId, Gep, [a, Const(0), v]))
    case _ => g
  }

  function LocatedAt(g: Code, b: Binding): Val {
    Res(if b.PtrSlot? then g.nextId + 1 else g.nextId)
  }

  ghost predicate AddressRun(w: World, c: Code, c': Code, env: Env, isVoid: bool, scopes: Ast.Scopes, r: Regs, x: Name, i: Ast.Expr, v: Val)
    requires CodeOk(c) && CodeOk(c')
  {
    OutcomeRun(w, c, c', env, isVoid, r, Ast.EvalAddress(w.sem, scopes, r.events, x, i), v)
  }

  ghost predicate AddressRuns(c: Code, c': Code, env: Env, isVoid: bool, x: Name, i: Ast.Expr, v: Val)
    requires CodeOk(c) && CodeOk(c')
  {
    forall w, scopes, r | Premise(w, c', env, scopes, r) :: AddressRun(w, c, c', env, isVoid, scopes, r, x, i, v)
  }

  ghost predicate AddressDone(c: Code, c': Code, env: Env, isVoid: bool, x: Name, i: Ast.Expr, v: Val) {
    Stage(c, c', env) && Usable(c', v) && AddressRuns(c, c', env, isVoid, x, i, v)
  }

  lemma LocateStage(base: Code, g: Code, env: Env, x: Name, v: Val)
    requires Stage(base, g, env) && Usable(g, v) && Indexable(env, x)
    ensures var b := Ast.Lookup(env, x).value;
            Stage(base, Located(g, b, v), env) && Usable(Located(g, b, v), LocatedAt(g, b))
            && (b.PtrSlot? ==> Stage(base, Append(g, Load(g.nextId, b.x)), env))
  {
    hide Certified, AvailNow, EnvOk;
    var b := Ast.Lookup(env, x).value;
    LookupAvail(env, AvailNow(g), x);
    match b
    case PtrSlot(s) =>
      Emit(base, g, env, Load(g.nextId, s));
      Emit(base, Append(g, Load(g.nextId, s)), env, Op(g.nextId + 1, Gep, [Res(g.nextId), v]));
    case ArrayBase(a) =>
      Emit(base, g, env, Op(g.nextId, Gep, [a, Const(0), v]));
  }

  lemma LocateRuns(w: World, base: Code, g: Code, env: Env, isVoid: bool, r: Regs, r1: Regs, scopes: Ast.Scopes, events: seq<Event>, x: Name, v: Val)
    requires Stage(base, g, env) && Usable(g, v) && Indexable(env, x) && CodeOk(base) && CodeOk(g)
    requires Comes(w, base, g, env, r, r1, scopes, events)
    requires var d := Located(g, Ast.Lookup(env, x).value, v); CodeOk(d) && FinalOf(d, w.f)
    requires Eval(w.args, r1.env, v) >= 0
    ensures var b := Ast.Lookup(env, x).value;
            OutcomeRun(w, base, Located(g, b, v), env, isVoid, r, Ast.Locate(w.sem, scopes, events, x, Eval(w.args, r1.env, v)), LocatedAt(g, b))
  {
    hide Stage, CodeOk, EnvOk, Eval, Related, FinalOf, Comes, KeepsEnv, OutcomeRun, Usable;
    LocateStage(base, g, env, x, v);
    StageFacts(base, g, env);
    ComesFacts(w, base, g, env, r, r1, scopes, events);
    FindSame(env, scopes, w.args, r1, x);
    var b := Ast.Lookup(env, x).value;
    var o := Ast.Locate(w.sem, scopes, events, x, Eval(w.args, r1.env, v));
    if b.PtrSlot? {
      var g1 := Append(g, Load(g.nextId, b.x));
      StageFacts(base, g1, env);
      FinalAppend(g1, Op(g.nextId + 1, Gep, [Res(g.nextId), v]), w.f);
      var r2 := LoadStep(w, base, g, env, r, r1, scopes, events, b.x);
      UsableBelow(g, v);
      KeepsValue(w.args, r1, r2, g.nextId, v);
      EvalThree(w.args, r2.env, Res(g.nextId), v, v);
      var r3 := PureStep(w, base, g1, env, r, r2, scopes, events, Gep, [Res(g.nextId), v]);
      Gives(w, base, Located(g, b, v), env, isVoid, r, o, LocatedAt(g, b), r3);
    } else {
      EvalThree(w.args, r1.env, b.v, Const(0), v);
      EvalConst(w.args, r1.env, 0);
      var r2 := PureStep(w, base, g, env, r, r1, scopes, events, Gep, [b.v, Const(0), v]);
      Gives(w, base, Located(g, b, v), env, isVoid, r, o, LocatedAt(g, b), r2);
    }
  }

  lemma UsableBelow(c: Code, v: Val)
    requires CodeOk(c) && Usable(c, v)
    ensures Below(v, c.nextId)
  {
  }

  lemma LocateFinal(base: Code, g: Code, env: Env, x: Name, v: Val, f: Func)
    requires Stage(base, g, env) && Usable(g, v) && Indexable(env, x) && FinalOf(Located(g, Ast.Lookup(env, x).value, v), f)
    ensures FinalOf(g, f)
  {
    hide Stage, CodeOk, FinalOf, Usable;
    LocateStage(base, g, env, x, v);
    StageFacts(base, g, env);
    match Ast.Lookup(env, x).value
    case PtrSlot(s) =>
      StageFacts(base, Append(g, Load(g.nextId, s)), env);
      FinalAppend(Append(g, Load(g.nextId, s)), Op(g.nextId + 1, Gep, [Res(g.nextId), v]), f);
      FinalAppend(g, Load(g.nextId, s), f);
    case ArrayBase(a) =>
      FinalAppend(g, Op(g.nextId, Gep, [a, Const(0), v]), f);
  }

  lemma AddressOneRun(w: World, c: Code, c1: Code, env: Env, isVoid: bool, scopes: Ast.Scopes, r: Regs, x: Name, i: Ast.Expr, vi: Val)
    requires ExprDone(c, c1, env, isVoid, i, vi) && Indexable(env, x) && c.cur !in c.term && CodeOk(c) && CodeOk(c1)
    requires var b := Ast.Lookup(env, x).value; var d := Located(Guarded(c1, vi, isVoid), b, vi);
             CodeOk(d) && Premise(w, d, env, scopes, r)
    ensures var b := Ast.Lookup(env, x).value; var g := Guarded(c1, vi, isVoid);
            AddressRun(w, c, Located(g, b, vi), env, isVoid, scopes, r, x, i, LocatedAt(g, b))
  {
    hide Stage, ExprDone, CodeOk, EnvOk, Eval, Related, FinalOf, Comes, KeepsEnv, OutcomeRun, Usable, ExprRuns, Ast.Eval, Guarded, Located,
      Leaves;
    var g := Guarded(c1, vi, isVoid);
    var b := Ast.Lookup(env, x).value;
    DoneFacts(c, c1, env, isVoid, i, vi);
    DoneUsable(c, c1, env, isVoid, i, vi);
    GuardStages(c, c1, env, vi, isVoid);
    StageFacts(c, g, env);
    LocateFinal(c, g, env, x, vi, w.f);
    GuardFinal(c, c1, env, vi, isVoid, w.f);
    UseExpr(w, c, c1, env, isVoid, scopes, r, i, vi);
    var a := Ast.Eval(w.sem, scopes, r.events, i);
    if a.Value? {
      var r1 := OutcomeValue(w, c, c1, env, isVoid, r, a, vi);
      GuardedPlace(w, c, c1, env, isVoid, r, r1, a.scopes, a.events, x, vi);
    } else {
      OutcomeExit(w, c, c1, env, isVoid, r, a, vi);
      Quits(w, c, Located(g, b, vi), env, isVoid, r, Ast.EvalAddress(w.sem, scopes, r.events, x, i), LocatedAt(g, b));
    }
  }

  /** The index has a value: the guard, then the place. */
  lemma GuardedPlace(w: World, c: Code, c1: Code, env: Env, isVoid: bool, r: Regs, r1: Regs, scopes: Ast.Scopes, events: seq<Event>, x: Name, v: Val)
    requires Stage(c, c1, env) && Usable(c1, v) && Indexable(env, x) && c.cur !in c.term && CodeOk(c) && CodeOk(c1) && CodeOk(Guarded(c1, v, isVoid))
    requires var d := Located(Guarded(c1, v, isVoid), Ast.Lookup(env, x).value, v); CodeOk(d) && FinalOf(d, w.f)
    requires FinalOf(Guarded(c1, v, isVoid), w.f) && Ast.Standard(w.sem) && Comes(w, c, c1, env, r, r1, scopes, events)
    ensures var b := Ast.Lookup(env, x).value; var g := Guarded(c1, v, isVoid);
            OutcomeRun(w, c, Located(g, b, v), env, isVoid, r, Ast.Locate(w.sem, scopes, events, x, Eval(w.args, r1.env, v)), LocatedAt(g, b))
  {
    hide Stage, CodeOk, EnvOk, Eval, Related, FinalOf, Comes, KeepsEnv, OutcomeRun, Usable, Guarded, Located, Leaves, Ast.Standard;
    var g, b := Guarded(c1, v, isVoid), Ast.Lookup(env, x).value;
    GuardStages(c, c1, env, v, isVoid);
    ComesFacts(w, c, c1, env, r, r1, scopes, events);
    FindSame(env, scopes, w.args, r1, x);
    GuardRuns(w, c, c1, env, isVoid, r, r1, scopes, events, v);
    if Eval(w.args, r1.env, v) < 0 {
      Quits(w, c, Located(g, b, v), env, isVoid, r, Ast.Locate(w.sem, scopes, events, x, Eval(w.args, r1.env, v)), LocatedAt(g, b));
    } else {
      var r2 :| Comes(w, c, g, env, r, r2, scopes, events) && KeepsEnv(r1, r2, c1.nextId);
      UsableKept(c1, w.args, r1, r2, v);
      LocateRuns(w, c, g, env, isVoid, r, r2, scopes, events, x, v);
    }
  }

  lemma UsableKept(c: Code, args: seq<int>, r: Regs, r': Regs, v: Val)
    requires CodeOk(c) && Usable(c, v) && KeepsEnv(r, r', c.nextId)
    ensures Eval(args, r'.env, v) == Eval(args, r.env, v)
  {
    hide CodeOk, AvailNow, KeepsEnv;
    KeepsValue(args, r, r', c.nextId, v);
  }

  lemma DoneUsable(c: Code, c': Code, env: Env, isVoid: bool, e: Ast.Expr, v: Val)
    requires ExprDone(c, c', env, isVoid, e, v)
    ensures CodeOk(c') && Usable(c', v)
  {
    hide Stage, ExprRuns, Certified, AvailNow;
    StageFacts(c, c', env);
  }

  lemma OutcomeValue(w: World, c: Code, c': Code, env: Env, isVoid: bool, r: Regs, o: Ast.Outcome, v: Val) returns (r': Regs)
    requires CodeOk(c) && CodeOk(c') && OutcomeRun(w, c, c', env, isVoid, r, o, v) && o.Value?
    ensures Comes(w, c, c', env, r, r', o.scopes, o.events) && Eval(w.args, r'.env, v) == o.v
  {
    hide CodeOk, Comes, Eval;
    var q :| Comes(w, c, c', env, r, q, o.scopes, o.events) && Eval(w.args, q.env, v) == o.v;
    r' := q;
  }

  lemma OutcomeExit(w: World, c: Code, c': Code, env: Env, isVoid: bool, r: Regs, o: Ast.Outcome, v: Val)
    requires CodeOk(c) && CodeOk(c') && OutcomeRun(w, c, c', env, isVoid, r, o, v)
    ensures o.Exited? ==> Leaves(w, c, r, Ast.DefaultResult(isVoid), o.events)
  {
    hide CodeOk, Comes, Eval, Leaves;
  }

  lemma AddressIsDone(c: Code, c1: Code, env: Env, isVoid: bool, x: Name, i: Ast.Expr, vi: Val)
    requires ExprDone(c, c1, env, isVoid, i, vi) && Indexable(env, x) && c.cur !in c.term
    ensures CodeOk(c1)
    ensures var b := Ast.Lookup(env, x).value; var g := Guarded(c1, vi, isVoid);
            AddressDone(c, Located(g, b, vi), env, isVoid, x, i, LocatedAt(g, b))
  {
    hide Stage, ExprDone, CodeOk, EnvOk, Premise, AddressRun, Usable, ExprRuns, Guarded, Located;
    DoneFacts(c, c1, env, isVoid, i, vi);
    var g := Guarded(c1, vi, isVoid);
    var b := Ast.Lookup(env, x).value;
    var d := Located(g, b, vi);
    DoneUsable(c, c1, env, isVoid, i, vi);
    GuardStages(c, c1, env, vi, isVoid);
    LocateStage(c, g, env, x, vi);
    StageFacts(c, d, env);
    forall w, scopes, r | Premise(w, d, env, scopes, r) ensures AddressRun(w, c, d, env, isVoid, scopes, r, x, i, LocatedAt(g, b)) {
      AddressOneRun(w, c, c1, env, isVoid, scopes, r, x, i, vi);
    }
  }

  lemma AddressFacts(c: Code, c': Code, env: Env, isVoid: bool, x: Name, i: Ast.Expr, v: Val)
    requires AddressDone(c, c', env, isVoid, x, i, v)
    ensures Stage(c, c', env) && CodeOk(c) && CodeOk(c') && c.nextId <= c'.nextId && EnvOk(env, c'.nextId, c'.nextSlot)
    ensures c'.cur !in c'.term && Usable(c', v) && Below(v, c'.nextId) && AddressRuns(c, c', env, isVoid, x, i, v)
  {
    hide Stage, UsesAvail, AvailNow, AddressRuns;
    StageFacts(c, c', env);
  }

  // ----- loads and stores of elements -----

  lemma IndexRun(w: World, c: Code, c1: Code, env: Env, isVoid: bool, scopes: Ast.Scopes, r: Regs, x: Name, i: Ast.Expr, v: Val)
    requires AddressDone(c, c1, env, isVoid, x, i, v) && CodeOk(c)
    requires var d := Append(c1, Op(c1.nextId, LoadPtr, [v])); CodeOk(d) && Premise(w, d, env, scopes, r)
    ensures ExprRun(w, c, Append(c1, Op(c1.nextId, LoadPtr, [v])), env, isVoid, scopes, r, Ast.Index(x, i), Res(c1.nextId))
  {
    hide Stage, AddressDone, CodeOk, EnvOk, Eval, Related, FinalOf, Comes, KeepsEnv, OutcomeRun, Usable, ExprRun, Leaves, Ast.EvalAddress;
    var d := Append(c1, Op(c1.nextId, LoadPtr, [v]));
    AddressFacts(c, c1, env, isVoid, x, i, v);
    FinalAppend(c1, Op(c1.nextId, LoadPtr, [v]), w.f);
    assert AddressRun(w, c, c1, env, isVoid, scopes, r, x, i, v);
    var a := Ast.EvalAddress(w.sem, scopes, r.events, x, i);
    var o := Ast.Eval(w.sem, scopes, r.events, Ast.Index(x, i));
    if a.Value? {
      var r1 := OutcomeValue(w, c, c1, env, isVoid, r, a, v);
      EvalThree(w.args, r1.env, v, v, v);
      var r2 := OutsideStep(w, c, c1, env, r, r1, a.scopes, a.events, LoadPtr, [v]);
      Gives(w, c, d, env, isVoid, r, o, Res(c1.nextId), r2);
    } else {
      OutcomeExit(w, c, c1, env, isVoid, r, a, v);
      Quits(w, c, d, env, isVoid, r, o, Res(c1.nextId));
    }
    ExprIntro(w, c, d, env, isVoid, scopes, r, Ast.Index(x, i), Res(c1.nextId));
  }

  lemma IndexDone(c: Code, c1: Code, env: Env, isVoid: bool, x: Name, i: Ast.Expr, v: Val)
    requires AddressDone(c, c1, env, isVoid, x, i, v)
    ensures ExprDone(c, Append(c1, Op(c1.nextId, LoadPtr, [v])), env, isVoid, Ast.Index(x, i), Res(c1.nextId))
  {
    hide Stage, AddressDone, CodeOk, EnvOk, Premise, ExprRun, AddressRuns, ExprRuns;
    var d := Append(c1, Op(c1.nextId, LoadPtr, [v]));
    AddressFacts(c, c1, env, isVoid, x, i, v);
    Emit(c, c1, env, Op(c1.nextId, LoadPtr, [v]));
    StageFacts(c, d, env);
    forall w, scopes, r | Premise(w, d, env, scopes, r) ensures ExprRun(w, c, d, env, isVoid, scopes, r, Ast.Index(x, i), Res(c1.nextId)) {
      IndexRun(w, c, c1, env, isVoid, scopes, r, x, i, v);
    }
    RunsIntro(c, d, env, isVoid, Ast.Index(x, i), Res(c1.nextId));
  }

  lemma AssignIndexRun(w: World, c: Code, c1: Code, c2: Code, env: Env, isVoid: bool, scopes: Ast.Scopes, r: Regs,
                       x: Name, i: Ast.Expr, rhs: Ast.Expr, v: Val, a: Val)
    requires ExprDone(c, c1, env, isVoid, rhs, v) && AddressDone(c1, c2, env, isVoid, x, i, a) && CodeOk(c)
    requires var d := Append(c2, Op(c2.nextId, StorePtr, [v, a])); CodeOk(d) && Premise(w, d, env, scopes, r)
    ensures ExprRun(w, c, Append(c2, Op(c2.nextId, StorePtr, [v, a])), env, isVoid, scopes, r, Ast.AssignIndex(x, i, rhs), v)
  {
    hide Stage, ExprDone, AddressDone, CodeOk, EnvOk, Eval, Related, FinalOf, Comes, KeepsEnv, OutcomeRun, Usable, ExprRun, ExprRuns, Leaves,
      Ast.EvalAddress, ThenRun;
    var d := Append(c2, Op(c2.nextId, StorePtr, [v, a]));
    DoneFacts(c, c1, env, isVoid, rhs, v);
    AddressFacts(c1, c2, env, isVoid, x, i, a);
    FinalAppend(c2, Op(c2.nextId, StorePtr, [v, a]), w.f);
    StageFinal(c1, c2, env, w.f);
    UseExpr(w, c, c1, env, isVoid, scopes, r, rhs, v);
    RunOutcome(w, c, c1, env, isVoid, scopes, r, rhs, v);
    var o1 := Ast.Eval(w.sem, scopes, r.events, rhs);
    var o := Ast.Eval(w.sem, scopes, r.events, Ast.AssignIndex(x, i, rhs));
    if o1.Value? {
      var r1 := OutcomeValue(w, c, c1, env, isVoid, r, o1, v);
      ComesFacts(w, c, c1, env, r, r1, o1.scopes, o1.events);
      assert AddressRun(w, c1, c2, env, isVoid, o1.scopes, r1, x, i, a);
      var o2 := Ast.EvalAddress(w.sem, o1.scopes, o1.events, x, i);
      ThenRuns(w, c, c1, c2, env, isVoid, r, r1, o1.scopes, o1.events, o1.v, v, o2, a);
      ElementStored(w, c, c2, env, isVoid, r, o1.v, v, o2, a, o);
    } else {
      OutcomeExit(w, c, c1, env, isVoid, r, o1, v);
      Quits(w, c, d, env, isVoid, r, o, v);
    }
    ExprIntro(w, c, d, env, isVoid, scopes, r, Ast.AssignIndex(x, i, rhs), v);
  }

  lemma RunOutcome(w: World, c: Code, c': Code, env: Env, isVoid: bool, scopes: Ast.Scopes, r: Regs, e: Ast.Expr, v: Val)
    requires CodeOk(c) && CodeOk(c') && ExprRun(w, c, c', env, isVoid, scopes, r, e, v)
    ensures OutcomeRun(w, c, c', env, isVoid, r, Ast.Eval(w.sem, scopes, r.events, e), v)
  {
  }

  lemma ElementStored(w: World, c: Code, c2: Code, env: Env, isVoid: bool, r: Regs, y: int, v: Val, o2: Ast.Outcome, a: Val, o: Ast.Outcome)
    requires CodeOk(c) && CodeOk(c2) && c.nextId <= c2.nextId && EnvOk(env, c2.nextId, c2.nextSlot) && c2.cur !in c2.term && Below(v, c2.nextId)
    requires ThenRun(w, c, c2, env, isVoid, r, y, v, o2, a)
    requires var d := Append(c2, Op(c2.nextId, StorePtr, [v, a])); CodeOk(d) && FinalOf(d, w.f)
    requires o == if o2.Value? then Ast.Value(y, o2.scopes, o2.events + [Event(StorePtr, [y, o2.v])]) else o2
    ensures OutcomeRun(w, c, Append(c2, Op(c2.nextId, StorePtr, [v, a])), env, isVoid, r, o, v)
  {
    hide CodeOk, EnvOk, Eval, Related, FinalOf, Comes, KeepsEnv, OutcomeRun, Leaves;
    var d := Append(c2, Op(c2.nextId, StorePtr, [v, a]));
    if o2.Value? {
      var r2 :| Comes(w, c, c2, env, r, r2, o2.scopes, o2.events) && Eval(w.args, r2.env, v) == y && Eval(w.args, r2.env, a) == o2.v;
      EvalThree(w.args, r2.env, v, a, a);
      var r3 := OutsideStep(w, c, c2, env, r, r2, o2.scopes, o2.events, StorePtr, [v, a]);
      KeepsValue(w.args, r2, r3, c2.nextId, v);
      Gives(w, c, d, env, isVoid, r, o, v, r3);
    } else {
      Quits(w, c, d, env, isVoid, r, o, v);
    }
  }

  lemma AssignIndexDone(c: Code, c1: Code, c2: Code, env: Env, isVoid: bool, x: Name, i: Ast.Expr, rhs: Ast.Expr, v: Val, a: Val)
    requires ExprDone(c, c1, env, isVoid, rhs, v) && AddressDone(c1, c2, env, isVoid, x, i, a)
    ensures ExprDone(c, Append(c2, Op(c2.nextId, StorePtr, [v, a])), env, isVoid, Ast.AssignIndex(x, i, rhs), v)
  {
    hide Stage, ExprDone, AddressDone, CodeOk, EnvOk, Premise, ExprRun, AddressRuns, ExprRuns;
    var d := Append(c2, Op(c2.nextId, StorePtr, [v, a]));
    DoneFacts(c, c1, env, isVoid, rhs, v);
    DoneUsable(c, c1, env, isVoid, rhs, v);
    AddressFacts(c1, c2, env, isVoid, x, i, a);
    StageTrans(c, c1, c2, env);
    StageUsable(c1, c2, env, v);
    Emit(c, c2, env, Op(c2.nextId, StorePtr, [v, a]));
    StageFacts(c, d, env);
    forall w, scopes, r | Premise(w, d, env, scopes, r) ensures ExprRun(w, c, d, env, isVoid, scopes, r, Ast.AssignIndex(x, i, rhs), v) {
      AssignIndexRun(w, c, c1, c2, env, isVoid, scopes, r, x, i, rhs, v, a);
    }
    RunsIntro(c, d, env, isVoid, Ast.AssignIndex(x, i, rhs), v);
    DoneIntro(c, d, env, isVoid, Ast.AssignIndex(x, i, rhs), v);
  }

  lemma DoneIntro(c: Code, c': Code, env: Env, isVoid: bool, e: Ast.Expr, v: Val)
    requires CodeOk(c) && CodeOk(c') && Stage(c, c', env) && Usable(c', v) && ExprRuns(c, c', env, isVoid, e, v)
    ensures ExprDone(c, c', env, isVoid, e, v)
  {
  }

  // ----- calls -----

  ghost predicate ArgsRun(w: World, c: Code, c': Code, env: Env, isVoid: bool, scopes: Ast.Scopes, r: Regs, args: seq<Ast.Expr>, vs: seq<Val>)
    requires CodeOk(c) && CodeOk(c')
  {
    match Ast.EvalArgs(w.sem, scopes, r.events, args)
    case ArgsFail(o) => !o.Value? && (o.Exited? ==> Leaves(w, c, r, Ast.DefaultResult(isVoid), o.events))
    case ArgValues(xs, scopes', events') =>
      exists r' :: Comes(w, c, c', env, r, r', scopes', events') && EvalAll(w.args, r'.env, vs) == xs
  }

  ghost predicate ArgsRuns(c: Code, c': Code, env: Env, isVoid: bool, args: seq<Ast.Expr>, vs: seq<Val>)
    requires CodeOk(c) && CodeOk(c')
  {
    forall w, scopes, r | Premise(w, c', env, scopes, r) :: ArgsRun(w, c, c', env, isVoid, scopes, r, args, vs)
  }

  ghost predicate ArgsDone(c: Code, c': Code, env: Env, isVoid: bool, args: seq<Ast.Expr>, vs: seq<Val>) {
    Stage(c, c', env) && (forall v | v in vs :: Usable(c', v)) && ArgsRuns(c, c', env, isVoid, args, vs)
  }

  lemma ArgsNone(c: Code, env: Env, isVoid: bool)
    requires Good(c, env) && c.cur !in c.term
    ensures ArgsDone(c, c, env, isVoid, [], [])
  {
    hide Certified, EnvOk, EnvAvail, Comes;
    StageStart(c, env);
    forall w, scopes, r | Premise(w, c, env, scopes, r) ensures ArgsRun(w, c, c, env, isVoid, scopes, r, [], []) {
      ComesRefl(w, c, env, r, scopes);
      EvalNone(w.args, r.env);
    }
  }

  lemma ArgsFacts(c: Code, c': Code, env: Env, isVoid: bool, args: seq<Ast.Expr>, vs: seq<Val>)
    requires ArgsDone(c, c', env, isVoid, args, vs)
    ensures Stage(c, c', env) && CodeOk(c) && CodeOk(c') && c.nextId <= c'.nextId && EnvOk(env, c'.nextId, c'.nextSlot)
    ensures c'.cur !in c'.term && ArgsRuns(c, c', env, isVoid, args, vs)
    ensures forall v | v in vs :: Usable(c', v) && Below(v, c'.nextId)
  {
    hide Stage, AvailNow, ArgsRuns;
    StageFacts(c, c', env);
  }

  lemma EvalAllSnoc(args: seq<int>, env: map<Id, int>, vs: seq<Val>, v: Val)
    ensures EvalAll(args, env, vs + [v]) == EvalAll(args, env, vs) + [Eval(args, env, v)]
  {
  }

  lemma KeepsAll(args: seq<int>, r: Regs, r': Regs, n: Id, vs: seq<Val>)
    requires KeepsEnv(r, r', n) && forall v | v in vs :: Below(v, n)
    ensures EvalAll(args, r'.env, vs) == EvalAll(args, r.env, vs)
  {
    hide Eval, KeepsEnv;
    forall i | 0 <= i < |vs| ensures Eval(args, r'.env, vs[i]) == Eval(args, r.env, vs[i]) {
      assert vs[i] in vs;
      KeepsValue(args, r, r', n, vs[i]);
    }
  }

  lemma ArgsNextRun(w: World, c: Code, c1: Code, c2: Code, env: Env, isVoid: bool, scopes: Ast.Scopes, r: Regs,
                    args: seq<Ast.Expr>, vs: seq<Val>, e: Ast.Expr, v: Val)
    requires ArgsDone(c, c1, env, isVoid, args, vs) && ExprDone(c1, c2, env, isVoid, e, v) && CodeOk(c) && CodeOk(c2)
    requires Premise(w, c2, env, scopes, r)
    ensures ArgsRun(w, c, c2, env, isVoid, scopes, r, args + [e], vs + [v])
  {
    hide Stage, ExprDone, ArgsDone, CodeOk, EnvOk, Eval, Related, FinalOf, Comes, KeepsEnv, OutcomeRun, Usable, ExprRun, ExprRuns, Leaves, Ast.Eval;
    ArgsFacts(c, c1, env, isVoid, args, vs);
    DoneFacts(c1, c2, env, isVoid, e, v);
    StageFinal(c1, c2, env, w.f);
    assert ArgsRun(w, c, c1, env, isVoid, scopes, r, args, vs);
    assert (args + [e])[..|args|] == args;
    var a := Ast.EvalArgs(w.sem, scopes, r.events, args);
    if a.ArgValues? {
      var r1 :| Comes(w, c, c1, env, r, r1, a.scopes, a.events) && EvalAll(w.args, r1.env, vs) == a.vs;
      ComesFacts(w, c, c1, env, r, r1, a.scopes, a.events);
      UseExpr(w, c1, c2, env, isVoid, a.scopes, r1, e, v);
      RunOutcome(w, c1, c2, env, isVoid, a.scopes, r1, e, v);
      var o := Ast.Eval(w.sem, a.scopes, a.events, e);
      if o.Value? {
        var r2 := OutcomeValue(w, c1, c2, env, isVoid, r1, o, v);
        ComesFacts(w, c1, c2, env, r1, r2, o.scopes, o.events);
        ComesTrans(w, c, c1, c2, env, r, r1, r2, a.scopes, a.events, o.scopes, o.events);
        KeepsAll(w.args, r1, r2, c1.nextId, vs);
        EvalAllSnoc(w.args, r2.env, vs, v);
      } else {
        OutcomeExit(w, c1, c2, env, isVoid, r1, o, v);
        if o.Exited? {
          ComesLeaves(w, c, c1, env, r, r1, a.scopes, a.events, Ast.DefaultResult(isVoid), o.events);
        }
      }
    }
  }

  lemma ArgsNext(c: Code, c1: Code, c2: Code, env: Env, isVoid: bool, args: seq<Ast.Expr>, vs: seq<Val>, e: Ast.Expr, v: Val)
    requires ArgsDone(c, c1, env, isVoid, args, vs) && ExprDone(c1, c2, env, isVoid, e, v)
    ensures ArgsDone(c, c2, env, isVoid, args + [e], vs + [v])
  {
    hide Stage, ExprDone, CodeOk, EnvOk, Premise, ArgsRun, ExprRuns, Usable;
    ArgsFacts(c, c1, env, isVoid, args, vs);
    DoneFacts(c1, c2, env, isVoid, e, v);
    DoneUsable(c1, c2, env, isVoid, e, v);
    StageTrans(c, c1, c2, env);
    forall u | u in vs ensures Usable(c2, u) {
      StageUsable(c1, c2, env, u);
    }
    forall w, scopes, r | Premise(w, c2, env, scopes, r) ensures ArgsRun(w, c, c2, env, isVoid, scopes, r, args + [e], vs + [v]) {
      ArgsNextRun(w, c, c1, c2, env, isVoid, scopes, r, args, vs, e, v);
    }
  }

  lemma CallRun(w: World, c: Code, c1: Code, env: Env, isVoid: bool, scopes: Ast.Scopes, r: Regs, x: Name, args: seq<Ast.Expr>, vs: seq<Val>)
    requires ArgsDone(c, c1, env, isVoid, args, vs) && CodeOk(c)
    requires Ast.Lookup(env, x).Some? && Ast.Lookup(env, x).value.FnName?
    requires var d := Append(c1, Op(c1.nextId, Call(Ast.Lookup(env, x).value.callee), vs)); CodeOk(d) && Premise(w, d, env, scopes, r)
    ensures ExprRun(w, c, Append(c1, Op(c1.nextId, Call(Ast.Lookup(env, x).value.callee), vs)), env, isVoid, scopes, r,
                    Ast.CallTo(x, args), Res(c1.nextId))
  {
    hide Stage, ArgsDone, CodeOk, EnvOk, Eval, FinalOf, Comes, KeepsEnv, OutcomeRun, Usable, ExprRun, Leaves, Ast.EvalArgs, Related;
    var k := Ast.Lookup(env, x).value.callee;
    var d := Append(c1, Op(c1.nextId, Call(k), vs));
    ArgsFacts(c, c1, env, isVoid, args, vs);
    FinalAppend(c1, Op(c1.nextId, Call(k), vs), w.f);
    FindSame(env, scopes, w.args, r, x);
    assert ArgsRun(w, c, c1, env, isVoid, scopes, r, args, vs);
    var a := Ast.EvalArgs(w.sem, scopes, r.events, args);
    var o := Ast.Eval(w.sem, scopes, r.events, Ast.CallTo(x, args));
    if a.ArgValues? {
      var r1 :| Comes(w, c, c1, env, r, r1, a.scopes, a.events) && EvalAll(w.args, r1.env, vs) == a.vs;
      var r2 := OutsideStep(w, c, c1, env, r, r1, a.scopes, a.events, Call(k), vs);
      Gives(w, c, d, env, isVoid, r, o, Res(c1.nextId), r2);
    } else {
      Quits(w, c, d, env, isVoid, r, o, Res(c1.nextId));
    }
    ExprIntro(w, c, d, env, isVoid, scopes, r, Ast.CallTo(x, args), Res(c1.nextId));
  }

  lemma CallDone(c: Code, c1: Code, env: Env, isVoid: bool, x: Name, args: seq<Ast.Expr>, vs: seq<Val>)
    requires ArgsDone(c, c1, env, isVoid, args, vs)
    requires Ast.Lookup(env, x).Some? && Ast.Lookup(env, x).value.FnName?
    ensures ExprDone(c, Append(c1, Op(c1.nextId, Call(Ast.Lookup(env, x).value.callee), vs)), env, isVoid, Ast.CallTo(x, args), Res(c1.nextId))
  {
    hide Stage, ArgsDone, CodeOk, EnvOk, Premise, ExprRun, ArgsRuns, ExprRuns;
    var i := Op(c1.nextId, Call(Ast.Lookup(env, x).value.callee), vs);
    var d := Append(c1, i);
    ArgsFacts(c, c1, env, isVoid, args, vs);
    assert UsesAvail(AvailNow(c1), vs) by {
      forall v | v in vs && v.Res? ensures v.id in AvailNow(c1) {
        assert Usable(c1, v) && v in [v];
      }
    }
    Emit(c, c1, env, i);
    StageFacts(c, d, env);
    forall w, scopes, r | Premise(w, d, env, scopes, r)
      ensures ExprRun(w, c, d, env, isVoid, scopes, r, Ast.CallTo(x, args), Res(c1.nextId))
    {
      CallRun(w, c, c1, env, isVoid, scopes, r, x, args, vs);
    }
    RunsIntro(c, d, env, isVoid, Ast.CallTo(x, args), Res(c1.nextId));
  }
}
