/** A whole function: its parameters, its body, the return at its end, and what running
    the finished function does. */
module FunctionCode {
  import opened Ir
  import opened Building
  import opened Translation
  import opened ExprCode
  import opened IndexCode
  import opened StmtCode
  import opened ScopeCode
  import Ast

  // ----- parameters -----

  /** Every parameter gets a slot that its argument is stored to. */
  function ParamCode(c: Code, i: nat): Code {
    Append(c.(nextSlot := c.nextSlot + 1), Store(Arg(i), c.nextSlot))
  }

  function ParamBinding(c: Code, p: Ast.Param): Binding {
    if p.isArray then PtrSlot(c.nextSlot) else IntSlot(c.nextSlot)
  }

  ghost predicate ParamsRun(w: World, c: Code, c': Code, env': Env, scopes: Ast.Scopes, r: Regs, params: seq<Ast.Param>)
    requires CodeOk(c) && CodeOk(c')
  {
    exists r' :: Comes(w, c, c', env', r, r', Ast.BindParams(scopes, params, w.args), r.events)
  }

  ghost predicate ParamsRuns(c: Code, c': Code, env: Env, env': Env, params: seq<Ast.Param>)
    requires CodeOk(c) && CodeOk(c')
  {
    forall w, scopes, r | Premise(w, c', env, scopes, r) :: ParamsRun(w, c, c', env', scopes, r, params)
  }

  ghost predicate ParamsDone(c: Code, c': Code, env: Env, env': Env, params: seq<Ast.Param>) {
    Stage(c, c', env') && |env'| == |env| && ParamsRuns(c, c', env, env', params)
  }

  lemma ParamsIntro(w: World, c: Code, c': Code, env': Env, scopes: Ast.Scopes, r: Regs, r': Regs, params: seq<Ast.Param>)
    requires CodeOk(c) && CodeOk(c') && Comes(w, c, c', env', r, r', Ast.BindParams(scopes, params, w.args), r.events)
    ensures ParamsRun(w, c, c', env', scopes, r, params)
  {
  }

  lemma ParamsNone(c: Code, env: Env)
    requires Good(c, env) && c.cur !in c.term
    ensures ParamsDone(c, c, env, env, [])
  {
    hide Certified, EnvOk, EnvAvail, Comes, AvailNow;
    StageStart(c, env);
    forall w, scopes, r | Premise(w, c, env, scopes, r) ensures ParamsRun(w, c, c, env, scopes, r, []) {
      ComesRefl(w, c, env, r, scopes);
      ParamsIntro(w, c, c, env, scopes, r, r, []);
    }
  }

  lemma UsesArg(s: set<Id>, i: nat)
    ensures UsesAvail(s, [Arg(i)])
  {
  }

  lemma ParamStage(base: Code, c: Code, env: Env, i: nat, p: Ast.Param)
    requires Stage(base, c, env)
    ensures Stage(base, ParamCode(c, i), Ast.Declare(env, p.name, ParamBinding(c, p)))
  {
    hide Certified, EnvOk, EnvAvail, AvailNow, UsesAvail;
    var b := ParamBinding(c, p);
    var d := c.(nextSlot := c.nextSlot + 1);
    SlotStage(base, c);
    EnvLater(env, c.nextId, c.nextSlot, d.nextId, d.nextSlot);
    UsesArg(AvailNow(d), i);
    Emit(base, d, env, Store(Arg(i), c.nextSlot));
    AppendAvail(d, Store(Arg(i), c.nextSlot));
    DeclareOk(env, p.name, b, c.nextId, c.nextSlot, c.nextId, c.nextSlot + 1);
    DeclareAvail(env, p.name, b, AvailNow(c), AvailNow(ParamCode(c, i)));
  }

  /** A store to a slot that no name has. */
  lemma FreshSlotRelated(env: Env, scopes: Ast.Scopes, args: seq<int>, r: Regs, x: Slot, v: int)
    requires Related(env, scopes, args, r) && SlotsBelow(env, x)
    ensures Related(env, scopes, args, r.(slots := r.slots[x := v]))
  {
    var r' := r.(slots := r.slots[x := v]);
    forall i, n | 0 <= i < |env| && n in env[i] ensures CellOk(env[i][n], scopes[i][n], args, r') {
      assert CellOk(env[i][n], scopes[i][n], args, r);
    }
  }

  /** The store of a parameter, from where the earlier ones have been stored. */
  lemma ParamStep(w: World, c: Code, c1: Code, env: Env, r: Regs, r1: Regs, scopes: Ast.Scopes, i: nat, p: Ast.Param) returns (r2: Regs)
    requires CodeOk(c) && CodeOk(c1) && Comes(w, c, c1, env, r, r1, scopes, r.events) && EnvOk(env, c1.nextId, c1.nextSlot)
    requires c1.cur !in c1.term && FinalOf(ParamCode(c1, i), w.f)
    ensures CodeOk(ParamCode(c1, i))
    ensures Comes(w, c, ParamCode(c1, i), Ast.Declare(env, p.name, ParamBinding(c1, p)), r, r2,
                  Ast.Declare(scopes, p.name, Ast.ParamCell(p, if i < |w.args| then w.args[i] else 0)), r.events)
  {
    hide Related, Reaches, Ast.Declare, SlotsDistinct, SlotsBelow, BasesBelow;
    var d := c1.(nextSlot := c1.nextSlot + 1);
    var store := Store(Arg(i), c1.nextSlot);
    ComesSlot(w, c, c1, env, r, r1, scopes, r.events);
    StepHere(w, d, store, r1);
    r2 := Step(w.sem, w.args, r1, store);
    ReachesOne(w, Here(d, r1));
    ReachesTrans(w, Here(c, r), Here(d, r1), Here(ParamCode(c1, i), r2));
    FreshSlotRelated(env, scopes, w.args, r1, c1.nextSlot, Eval(w.args, r1.env, Arg(i)));
    ComesDeclare(w, c, ParamCode(c1, i), env, r, r2, scopes, r.events, p.name, ParamBinding(c1, p),
                 Ast.ParamCell(p, if i < |w.args| then w.args[i] else 0));
  }

  lemma ParamNextRun(w: World, c: Code, c1: Code, env: Env, env1: Env, scopes: Ast.Scopes, r: Regs, params: seq<Ast.Param>, p: Ast.Param)
    requires ParamsDone(c, c1, env, env1, params) && CodeOk(c) && CodeOk(c1)
    requires CodeOk(ParamCode(c1, |params|)) && Premise(w, ParamCode(c1, |params|), env, scopes, r)
    ensures ParamsRun(w, c, ParamCode(c1, |params|), Ast.Declare(env1, p.name, ParamBinding(c1, p)), scopes, r, params + [p])
  {
    hide Stage, CodeOk, EnvOk, Related, FinalOf, Comes, KeepsEnv, Eval, Ast.Declare;
    StageFacts(c, c1, env1);
    assert (params + [p])[..|params|] == params;
    var scopes1 := Ast.BindParams(scopes, params, w.args);
    ParamFinal(c1, |params|, w.f);
    assert ParamsRun(w, c, c1, env1, scopes, r, params);
    var r1 :| Comes(w, c, c1, env1, r, r1, scopes1, r.events);
    var r2 := ParamStep(w, c, c1, env1, r, r1, scopes1, |params|, p);
    ParamsIntro(w, c, ParamCode(c1, |params|), Ast.Declare(env1, p.name, ParamBinding(c1, p)), scopes, r, r2, params + [p]);
  }

  lemma ParamFinal(c: Code, i: nat, f: Func)
    requires CodeOk(c) && c.cur !in c.term && FinalOf(ParamCode(c, i), f)
    ensures FinalOf(c, f)
  {
    var d := c.(nextSlot := c.nextSlot + 1);
    FinalAppend(d, Store(Arg(i), c.nextSlot), f);
  }

  lemma ParamsNext(c: Code, c1: Code, env: Env, env1: Env, params: seq<Ast.Param>, p: Ast.Param)
    requires ParamsDone(c, c1, env, env1, params)
    ensures ParamsDone(c, ParamCode(c1, |params|), env, Ast.Declare(env1, p.name, ParamBinding(c1, p)), params + [p])
  {
    hide Stage, CodeOk, EnvOk, Premise, ParamsRun;
    StageFacts(c, c1, env1);
    ParamStage(c, c1, env1, |params|, p);
    StageFacts(c, ParamCode(c1, |params|), Ast.Declare(env1, p.name, ParamBinding(c1, p)));
    forall w, scopes, r | Premise(w, ParamCode(c1, |params|), env, scopes, r)
      ensures ParamsRun(w, c, ParamCode(c1, |params|), Ast.Declare(env1, p.name, ParamBinding(c1, p)), scopes, r, params + [p])
    {
      ParamNextRun(w, c, c1, env, env1, scopes, r, params, p);
    }
  }

  /** What the names of the parameters are. */
  function ParamKinds(ks: Kinds, params: seq<Ast.Param>): Kinds {
    if params == [] then ks
    else
      var p := params[|params| - 1];
      Ast.Declare(ParamKinds(ks, params[..|params| - 1]), p.name, if p.isArray then PtrKind else IntKind)
  }

  // ----- the whole function -----

  /** Only the entry block, open and empty. */
  function StartCode(): Code {
    Code(1, map[0 := []], map[], 0, 0, 0, map[0 := {}])
  }

  /** Globals are known by addresses that do not depend on instructions. */
  ghost predicate GlobalScope(env: Env) {
    |env| == 1 && forall n | n in env[0] :: env[0][n].FnName? || (BaseOf(env[0][n]).Some? && !BaseOf(env[0][n]).value.Res?)
  }

  lemma StartGood(env: Env)
    requires GlobalScope(env)
    ensures Good(StartCode(), env + [map[]]) && CodeOk(StartCode()) && StartCode().cur !in StartCode().term
  {
    var e := env + [map[]];
    assert forall i, n | 0 <= i < |e| && n in e[i] :: i == 0 && e[i] == env[0];
  }

  /** A function that has come to its end returns the default. */
  function Ended(c: Code, isVoid: bool): Code {
    if c.cur in c.term then c else Branch(c, DefaultRet(isVoid), c.cur)
  }

  /** The finished code of a function declaration. */
  ghost predicate BuiltBy(d: Ast.FunDecl, env: Env, c: Code, c1: Code, c2: Code, c3: Code, env1: Env, env2: Env) {
    && ParamsDone(StartCode(), c1, env + [map[]], env1, d.params) && DeclsDone(c1, c2, env1, env2, d.decls)
    && ListDone(c2, c3, env2, d.isVoid, d.stmts) && c == Ended(c3, d.isVoid)
  }

  ghost predicate Built(d: Ast.FunDecl, env: Env, c: Code) {
    exists c1, c2, c3, env1, env2 :: BuiltBy(d, env, c, c1, c2, c3, env1, env2)
  }

  ghost function FirstRegs(): Regs {
    Regs(map[], map[], [], true)
  }

  /** The globals are where the function expects them. */
  ghost predicate Globals(env: Env, scopes: Ast.Scopes, args: seq<int>) {
    Related(env, scopes, args, FirstRegs())
  }

  ghost predicate InvokeRun(w: World, eff: Ast.Effect, fuel: nat) {
    match eff
    case Wrong => true
    case OutOfFuel(events) => RunsOn(w, Mid(0, 0, FirstRegs()), fuel, events)
    case Left(val, events) => exists r' :: Reaches(w, Mid(0, 0, FirstRegs()), End(val, r')) && r'.events == events && r'.clean
    case Normal(_, _) => false
  }

  /** Running the code from its entry does what calling the function does. */
  lemma BuiltRun(w: World, d: Ast.FunDecl, env: Env, c: Code, globals: Ast.Scopes, fuel: nat)
    requires Built(d, env, c) && FinalOf(c, w.f) && Ast.Standard(w.sem) && Globals(env, globals, w.args)
    ensures InvokeRun(w, Ast.Invoke(w.sem, globals, d, w.args, fuel), fuel)
  {
    hide ParamsDone, DeclsDone, ListDone, FinalOf, Related, InvokeRun, Ended, Ast.ExecAll, Ast.DeclareAll, Ast.BindParams;
    var c1, c2, c3, env1, env2 :| BuiltBy(d, env, c, c1, c2, c3, env1, env2);
    BuiltStarts(w, d, env, c1, c2, c3, env1, env2, globals, fuel);
    EndedRun(w, d.isVoid, c3, env2, BodyEffect(w, d, globals, fuel), fuel);
  }

  ghost function BodyEffect(w: World, d: Ast.FunDecl, globals: Ast.Scopes, fuel: nat): Ast.Effect {
    Ast.ExecAll(w.sem, d.isVoid, Ast.DeclareAll(w.sem, Ast.BindParams(globals + [map[]], d.params, w.args), d.decls), [], d.stmts, fuel)
  }

  lemma EndedFinal(c: Code, isVoid: bool, f: Func)
    requires CodeOk(c) && FinalOf(Ended(c, isVoid), f)
    ensures FinalOf(c, f)
  {
    if c.cur !in c.term {
      FinalBranch(c, DefaultRet(isVoid), c.cur, f);
    }
  }

  lemma PartsFacts(c1: Code, c2: Code, c3: Code, env: Env, env1: Env, env2: Env, d: Ast.FunDecl)
    requires ParamsDone(StartCode(), c1, env, env1, d.params) && DeclsDone(c1, c2, env1, env2, d.decls)
    requires ListDone(c2, c3, env2, d.isVoid, d.stmts)
    ensures CodeOk(StartCode()) && CodeOk(c1) && CodeOk(c2) && CodeOk(c3) && c1.nextId >= 0
    ensures StartCode().nextId <= c1.nextId <= c2.nextId && Stage(c1, c2, env2) && Stage(StartCode(), c1, env1) && Phase(c2, c3, env2)
    ensures ParamsRuns(StartCode(), c1, env, env1, d.params) && DeclsRuns(c1, c2, env1, env2, d.decls)
    ensures ListRuns(c2, c3, env2, d.isVoid, d.stmts)
  {
    hide Stage, Phase, CodeOk, ParamsRuns, DeclsRuns, ListRuns, EnvOk;
    StageFacts(StartCode(), c1, env1);
    StageFacts(c1, c2, env2);
    PhaseFacts(c2, c3, env2);
  }

  lemma BuiltStarts(w: World, d: Ast.FunDecl, env: Env, c1: Code, c2: Code, c3: Code, env1: Env, env2: Env, globals: Ast.Scopes, fuel: nat)
    requires ParamsDone(StartCode(), c1, env + [map[]], env1, d.params) && DeclsDone(c1, c2, env1, env2, d.decls)
    requires ListDone(c2, c3, env2, d.isVoid, d.stmts) && FinalOf(Ended(c3, d.isVoid), w.f)
    requires Ast.Standard(w.sem) && Globals(env, globals, w.args)
    ensures CodeOk(StartCode()) && CodeOk(c3) && FinalOf(c3, w.f)
    ensures EffectRun(w, StartCode(), c3, env2, FirstRegs(), BodyEffect(w, d, globals, fuel), fuel)
  {
    hide ParamsDone, DeclsDone, ListDone, Stage, Phase, CodeOk, EnvOk, Related, FinalOf, Comes, KeepsEnv, EffectRun, Ended,
      Ast.ExecAll, Ast.DeclareAll, Ast.BindParams, StartCode;
    var start, r := StartCode(), FirstRegs();
    PartsFacts(c1, c2, c3, env + [map[]], env1, env2, d);
    EndedFinal(c3, d.isVoid, w.f);
    PhaseFinal(c2, c3, env2, w.f);
    StageFinal(c1, c2, env2, w.f);
    PushRelated(env, globals, w.args, r);
    assert ParamsRun(w, start, c1, env1, globals + [map[]], r, d.params);
    var scopes1 := Ast.BindParams(globals + [map[]], d.params, w.args);
    var r1 :| Comes(w, start, c1, env1, r, r1, scopes1, r.events);
    ComesFacts(w, start, c1, env1, r, r1, scopes1, r.events);
    assert DeclsRun(w, c1, c2, env2, scopes1, r1, d.decls);
    var scopes2 := Ast.DeclareAll(w.sem, scopes1, d.decls);
    var r2 :| Comes(w, c1, c2, env2, r1, r2, scopes2, r.events);
    ComesFacts(w, c1, c2, env2, r1, r2, scopes2, r.events);
    assert ListRun(w, c2, c3, env2, d.isVoid, scopes2, r2, d.stmts, fuel);
    ListOut(w, c2, c3, env2, d.isVoid, scopes2, r2, d.stmts, fuel);
    AcrossDecls(w, start, c1, c2, c3, env1, env2, r, r1, r2, scopes1, scopes2, BodyEffect(w, d, globals, fuel), fuel);
  }

  /** The scopes of the parameters are followed by those of the declarations. */
  lemma AcrossDecls(w: World, c: Code, c1: Code, c2: Code, c3: Code, env1: Env, env2: Env, r: Regs, r1: Regs, r2: Regs,
                    scopes1: Ast.Scopes, scopes2: Ast.Scopes, eff: Ast.Effect, fuel: nat)
    requires CodeOk(c) && CodeOk(c1) && CodeOk(c2) && CodeOk(c3) && c.nextId <= c1.nextId <= c2.nextId
    requires Comes(w, c, c1, env1, r, r1, scopes1, r.events) && Comes(w, c1, c2, env2, r1, r2, scopes2, r.events)
    requires EffectRun(w, c2, c3, env2, r2, eff, fuel)
    ensures EffectRun(w, c, c3, env2, r, eff, fuel)
  {
    hide CodeOk, Related, Reaches, EffectRun;
    ReachesTrans(w, Here(c, r), Here(c1, r1), Here(c2, r2));
    assert Comes(w, c, c2, env2, r, r2, scopes2, r.events);
    EffectAfter(w, c, c2, c3, env2, r, r2, scopes2, r.events, eff, fuel);
  }

  lemma EndedRun(w: World, isVoid: bool, c: Code, env: Env, eff: Ast.Effect, fuel: nat)
    requires CodeOk(StartCode()) && CodeOk(c) && FinalOf(c, w.f) && FinalOf(Ended(c, isVoid), w.f)
    requires EffectRun(w, StartCode(), c, env, FirstRegs(), eff, fuel)
    ensures InvokeRun(w, if eff.Normal? then Ast.Left(Ast.DefaultResult(isVoid), eff.events) else eff, fuel)
  {
    hide Related, Reaches, RunsOn, KeepsEnv, FinalOf;
    assert Here(StartCode(), FirstRegs()) == Mid(0, 0, FirstRegs());
    if eff.Normal? {
      var r' :| Comes(w, StartCode(), c, env, FirstRegs(), r', eff.scopes, eff.events);
      EvalConst(w.args, r'.env, 0);
      LeavesRet(w, StartCode(), c, DefaultRet(isVoid), c.cur, env, FirstRegs(), r', eff.scopes, eff.events);
    }
  }
}
