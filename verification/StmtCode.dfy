/** One lemma per kind of statement: the blocks that the builder makes for it do what
    running it does, also when it returns early or does not end. */
module StmtCode {
  import opened Common
  import opened Cfg
  import opened Ir
  import opened Building
  import opened Translation
  import opened ExprCode
  import opened IndexCode
  import Ast

  /** Like Stage, but the current block may have been ended by a return. */
  ghost predicate Phase(base: Code, c: Code, env: Env) {
    && CodeOk(base) && CodeOk(c) && Certified(c) && 0 <= c.nextId && EnvOk(env, c.nextId, c.nextSlot) && Grew(base, c)
    && (c.cur !in c.term ==> EnvAvail(env, AvailNow(c)) && AvailNow(base) <= AvailNow(c))
  }

  lemma StagePhase(base: Code, c: Code, env: Env)
    ensures Stage(base, c, env) <==> Phase(base, c, env) && c.cur !in c.term
  {
    hide Certified, EnvOk, EnvAvail, AvailNow, Grew;
  }

  /** What the run does, by the effect of the statement. */
  ghost predicate EffectRun(w: World, c: Code, c': Code, env: Env, r: Regs, eff: Ast.Effect, fuel: nat)
    requires CodeOk(c) && CodeOk(c')
  {
    match eff
    case Wrong => true
    case OutOfFuel(events) => RunsOn(w, Here(c, r), fuel, events)
    case Left(val, events) => Leaves(w, c, r, val, events)
    case Normal(scopes', events) => c'.cur !in c'.term && exists r' :: Comes(w, c, c', env, r, r', scopes', events)
  }

  ghost predicate StmtRun(w: World, c: Code, c': Code, env: Env, isVoid: bool, scopes: Ast.Scopes, r: Regs, s: Ast.Stmt, fuel: nat)
    requires CodeOk(c) && CodeOk(c')
  {
    EffectRun(w, c, c', env, r, Ast.Exec(w.sem, isVoid, scopes, r.events, s, fuel), fuel)
  }

  ghost predicate StmtRuns(c: Code, c': Code, env: Env, isVoid: bool, s: Ast.Stmt)
    requires CodeOk(c) && CodeOk(c')
  {
    forall w, scopes, r, fuel: nat | Premise(w, c', env, scopes, r) :: StmtRun(w, c, c', env, isVoid, scopes, r, s, fuel)
  }

  ghost predicate StmtDone(c: Code, c': Code, env: Env, isVoid: bool, s: Ast.Stmt) {
    Phase(c, c', env) && StmtRuns(c, c', env, isVoid, s)
  }

  lemma PhaseFacts(base: Code, c: Code, env: Env)
    requires Phase(base, c, env)
    ensures CodeOk(base) && CodeOk(c) && base.nextId <= c.nextId && base.count <= c.count && EnvOk(env, c.nextId, c.nextSlot)
    ensures 0 <= base.cur < base.count && 0 <= c.cur < c.count
  {
    hide Certified, EnvOk, EnvAvail, AvailNow;
  }

  lemma StmtFacts(c: Code, c': Code, env: Env, isVoid: bool, s: Ast.Stmt)
    requires StmtDone(c, c', env, isVoid, s)
    ensures Phase(c, c', env) && CodeOk(c) && CodeOk(c') && c.nextId <= c'.nextId && c.count <= c'.count
    ensures EnvOk(env, c'.nextId, c'.nextSlot) && StmtRuns(c, c', env, isVoid, s)
  {
    hide Phase, StmtRuns;
    PhaseFacts(c, c', env);
  }

  lemma UseStmt(w: World, c: Code, c': Code, env: Env, isVoid: bool, scopes: Ast.Scopes, r: Regs, s: Ast.Stmt, fuel: nat)
    requires CodeOk(c) && CodeOk(c') && StmtRuns(c, c', env, isVoid, s) && Premise(w, c', env, scopes, r)
    ensures EffectRun(w, c, c', env, r, Ast.Exec(w.sem, isVoid, scopes, r.events, s, fuel), fuel)
  {
    assert StmtRun(w, c, c', env, isVoid, scopes, r, s, fuel);
  }

  lemma RunIntro(w: World, c: Code, c': Code, env: Env, isVoid: bool, scopes: Ast.Scopes, r: Regs, s: Ast.Stmt, fuel: nat)
    requires CodeOk(c) && CodeOk(c') && EffectRun(w, c, c', env, r, Ast.Exec(w.sem, isVoid, scopes, r.events, s, fuel), fuel)
    ensures StmtRun(w, c, c', env, isVoid, scopes, r, s, fuel)
  {
  }

  lemma StmtIntro(c: Code, c': Code, env: Env, isVoid: bool, s: Ast.Stmt)
    requires Phase(c, c', env) && CodeOk(c) && CodeOk(c')
    requires forall w, scopes, r, fuel: nat | Premise(w, c', env, scopes, r) :: StmtRun(w, c, c', env, isVoid, scopes, r, s, fuel)
    ensures StmtDone(c, c', env, isVoid, s)
  {
  }

  lemma PhaseFinal(base: Code, c: Code, env: Env, f: Func)
    requires Phase(base, c, env) && FinalOf(c, f)
    ensures FinalOf(base, f)
  {
    hide Certified, AvailNow, EnvOk, EnvAvail;
    FinalBack(base, c, f);
  }

  lemma PhaseTrans(a: Code, b: Code, c: Code, env: Env)
    requires Stage(a, b, env) && Phase(b, c, env)
    ensures Phase(a, c, env)
  {
    hide Certified, AvailNow, EnvOk, EnvAvail;
    GrewTrans(a, b, c);
  }

  // ----- effects, one after another -----

  lemma EffectAfter(w: World, c: Code, c1: Code, c2: Code, env: Env, r: Regs, r1: Regs, scopes1: Ast.Scopes, events1: seq<Event>,
                    eff: Ast.Effect, fuel: nat)
    requires CodeOk(c) && CodeOk(c1) && CodeOk(c2) && c.nextId <= c1.nextId
    requires Comes(w, c, c1, env, r, r1, scopes1, events1) && EffectRun(w, c1, c2, env, r1, eff, fuel)
    ensures EffectRun(w, c, c2, env, r, eff, fuel)
  {
    hide CodeOk, Related, KeepsEnv, Reaches, RunsOn;
    match eff
    case Wrong =>
    case OutOfFuel(events) => RunsOnAfter(w, Here(c, r), Here(c1, r1), fuel, events);
    case Left(val, events) => ComesLeaves(w, c, c1, env, r, r1, scopes1, events1, val, events);
    case Normal(scopes', events) =>
      var r2 :| Comes(w, c1, c2, env, r1, r2, scopes', events);
      ComesTrans(w, c, c1, c2, env, r, r1, r2, scopes1, events1, scopes', events);
  }

  /** Where a branch of an if or a loop body goes on, unless it has returned. */
  function JoinTo(c: Code, target: Block, next: Block): Code {
    if c.cur in c.term then c.(cur := next) else Branch(c, Br(target), next)
  }

  lemma JoinFinal(c: Code, target: Block, next: Block, f: Func)
    requires CodeOk(c) && FinalOf(JoinTo(c, target, next), f)
    ensures FinalOf(c, f)
  {
    if c.cur !in c.term {
      FinalBranch(c, Br(target), next, f);
    } else {
      FinalCur(c, next, f);
    }
  }

  /** The effect of a branch, seen from the block where the branches join. */
  lemma EffectJoin(w: World, c: Code, c5: Code, d: Code, env: Env, r: Regs, eff: Ast.Effect, fuel: nat, target: Block, next: Block)
    requires CodeOk(c) && CodeOk(c5) && CodeOk(d) && EffectRun(w, c, c5, env, r, eff, fuel)
    requires FinalOf(JoinTo(c5, target, next), w.f) && d.cur == target && d.body[target] == [] && target !in d.term
    ensures EffectRun(w, c, d, env, r, eff, fuel)
  {
    hide CodeOk, Comes, RunsOn, FinalOf, Leaves;
    if eff.Normal? {
      var r' :| Comes(w, c, c5, env, r, r', eff.scopes, eff.events);
      ComesBranch(w, c, c5, Br(target), next, d, env, r, r', eff.scopes, eff.events);
    }
  }

  // ----- simple statements -----

  lemma NothingDone(c: Code, env: Env, isVoid: bool)
    requires Good(c, env) && c.cur !in c.term
    ensures StmtDone(c, c, env, isVoid, Ast.Expression(None))
  {
    hide Certified, EnvOk, EnvAvail, Comes, AvailNow;
    StageStart(c, env);
    StagePhase(c, c, env);
    forall w, scopes, r, fuel: nat | Premise(w, c, env, scopes, r)
      ensures StmtRun(w, c, c, env, isVoid, scopes, r, Ast.Expression(None), fuel)
    {
      ComesRefl(w, c, env, r, scopes);
    }
  }

  lemma ExpressionRun(w: World, c: Code, c': Code, env: Env, isVoid: bool, r: Regs, o: Ast.Outcome, v: Val, fuel: nat)
    requires CodeOk(c) && CodeOk(c') && OutcomeRun(w, c, c', env, isVoid, r, o, v) && c'.cur !in c'.term
    ensures EffectRun(w, c, c', env, r, Ast.ExprEffect(isVoid, o), fuel)
  {
    hide CodeOk, Comes, Leaves, Eval;
  }

  lemma ExpressionDone(c: Code, c': Code, env: Env, isVoid: bool, e: Ast.Expr, v: Val)
    requires ExprDone(c, c', env, isVoid, e, v)
    ensures StmtDone(c, c', env, isVoid, Ast.Expression(Some(e)))
  {
    hide ExprDone, Stage, CodeOk, EnvOk, Premise, StmtRun, EffectRun, ExprRuns, OutcomeRun, Phase, StmtDone, Ast.Eval;
    DoneFacts(c, c', env, isVoid, e, v);
    StagePhase(c, c', env);
    forall w, scopes, r, fuel: nat | Premise(w, c', env, scopes, r)
      ensures StmtRun(w, c, c', env, isVoid, scopes, r, Ast.Expression(Some(e)), fuel)
    {
      UseExpr(w, c, c', env, isVoid, scopes, r, e, v);
      RunOutcome(w, c, c', env, isVoid, scopes, r, e, v);
      ExpressionRun(w, c, c', env, isVoid, r, Ast.Eval(w.sem, scopes, r.events, e), v, fuel);
      RunIntro(w, c, c', env, isVoid, scopes, r, Ast.Expression(Some(e)), fuel);
    }
    StmtIntro(c, c', env, isVoid, Ast.Expression(Some(e)));
  }

  /** Ending the block with a return. */
  lemma RetPhase(base: Code, c: Code, env: Env, v: Option<Val>)
    requires Stage(base, c, env) && base.cur !in base.term && (v.Some? ==> Usable(c, v.value))
    ensures Phase(base, Branch(c, Ret(v), c.cur), env)
  {
    hide Certified, AvailNow, EnvOk, EnvAvail;
    BranchOk(base, c, Ret(v), c.cur);
    BranchCertified(c, Ret(v), c.cur);
  }

  lemma ReturnNoneDone(c: Code, env: Env, isVoid: bool)
    requires Good(c, env) && c.cur !in c.term
    ensures StmtDone(c, Branch(c, Ret(None), c.cur), env, isVoid, Ast.Return(None))
  {
    hide Certified, AvailNow, EnvOk, EnvAvail, Comes, StmtRun, Phase, StmtDone, FinalOf, Related;
    var d := Branch(c, Ret(None), c.cur);
    StageStart(c, env);
    RetPhase(c, c, env, None);
    PhaseFacts(c, d, env);
    forall w, scopes, r, fuel: nat | Premise(w, d, env, scopes, r)
      ensures StmtRun(w, c, d, env, isVoid, scopes, r, Ast.Return(None), fuel)
    {
      ComesRefl(w, c, env, r, scopes);
      LeavesRet(w, c, c, Ret(None), c.cur, env, r, r, scopes, r.events);
      RunIntro(w, c, d, env, isVoid, scopes, r, Ast.Return(None), fuel);
    }
    StmtIntro(c, d, env, isVoid, Ast.Return(None));
  }

  lemma ReturnRun(w: World, c: Code, c1: Code, env: Env, isVoid: bool, scopes: Ast.Scopes, r: Regs, e: Ast.Expr, v: Val, fuel: nat)
    requires ExprDone(c, c1, env, isVoid, e, v) && CodeOk(c)
    requires var d := Branch(c1, Ret(Some(v)), c1.cur); CodeOk(d) && Premise(w, d, env, scopes, r)
    ensures StmtRun(w, c, Branch(c1, Ret(Some(v)), c1.cur), env, isVoid, scopes, r, Ast.Return(Some(e)), fuel)
  {
    hide ExprDone, Stage, CodeOk, EnvOk, StmtRun, EffectRun, ExprRuns, OutcomeRun, Phase, Ast.Eval, Comes, Eval, FinalOf, Related, Leaves;
    var d := Branch(c1, Ret(Some(v)), c1.cur);
    DoneFacts(c, c1, env, isVoid, e, v);
    FinalBranch(c1, Ret(Some(v)), c1.cur, w.f);
    UseExpr(w, c, c1, env, isVoid, scopes, r, e, v);
    RunOutcome(w, c, c1, env, isVoid, scopes, r, e, v);
    var o := Ast.Eval(w.sem, scopes, r.events, e);
    if o.Value? {
      var r1 := OutcomeValue(w, c, c1, env, isVoid, r, o, v);
      LeavesRet(w, c, c1, Ret(Some(v)), c1.cur, env, r, r1, o.scopes, o.events);
      LeftRun(w, c, d, env, r, Some(o.v), o.events, fuel);
    } else {
      OutcomeExit(w, c, c1, env, isVoid, r, o, v);
      ExitRun(w, c, d, env, isVoid, r, o, fuel);
    }
    RunIntro(w, c, d, env, isVoid, scopes, r, Ast.Return(Some(e)), fuel);
  }

  lemma LeftRun(w: World, c: Code, d: Code, env: Env, r: Regs, val: Option<int>, events: seq<Event>, fuel: nat)
    requires CodeOk(c) && CodeOk(d) && Leaves(w, c, r, val, events)
    ensures EffectRun(w, c, d, env, r, Ast.Left(val, events), fuel)
  {
  }

  lemma ExitRun(w: World, c: Code, d: Code, env: Env, isVoid: bool, r: Regs, o: Ast.Outcome, fuel: nat)
    requires CodeOk(c) && CodeOk(d) && !o.Value? && (o.Exited? ==> Leaves(w, c, r, Ast.DefaultResult(isVoid), o.events))
    ensures EffectRun(w, c, d, env, r, Ast.ExprEffect(isVoid, o), fuel)
  {
  }

  lemma ReturnDone(c: Code, c1: Code, env: Env, isVoid: bool, e: Ast.Expr, v: Val)
    requires ExprDone(c, c1, env, isVoid, e, v) && c.cur !in c.term
    ensures StmtDone(c, Branch(c1, Ret(Some(v)), c1.cur), env, isVoid, Ast.Return(Some(e)))
  {
    hide ExprDone, Stage, CodeOk, EnvOk, Premise, StmtRun, ExprRuns, Phase, StmtDone, Ast.Eval, Usable;
    var d := Branch(c1, Ret(Some(v)), c1.cur);
    DoneFacts(c, c1, env, isVoid, e, v);
    DoneUsable(c, c1, env, isVoid, e, v);
    RetPhase(c, c1, env, Some(v));
    PhaseFacts(c, d, env);
    forall w, scopes, r, fuel: nat | Premise(w, d, env, scopes, r)
      ensures StmtRun(w, c, d, env, isVoid, scopes, r, Ast.Return(Some(e)), fuel)
    {
      ReturnRun(w, c, c1, env, isVoid, scopes, r, e, v, fuel);
    }
    StmtIntro(c, d, env, isVoid, Ast.Return(Some(e)));
  }
}
