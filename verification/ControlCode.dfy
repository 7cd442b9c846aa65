/** The blocks of if and while. */
module ControlCode {
  import opened Common
  import opened Cfg
  import opened Ir
  import opened Building
  import opened Translation
  import opened ExprCode
  import opened IndexCode
  import opened StmtCode
  import Ast

  // ----- testing a condition -----

  /** The comparison with zero, in the block that computed the condition; two blocks are ready. */
  ghost function Compared0(c: Code, v: Val): Code
    requires CodeOk(c)
  {
    Append(Create(c, 2), Op(c.nextId, Icmp(Ne), [v, Const(0)]))
  }

  /** The third block, for an else part. */
  ghost function Opened(c: Code, v: Val, hasElse: bool): Code
    requires CodeOk(c)
  {
    if hasElse && CodeOk(Compared0(c, v)) then Create(Compared0(c, v), 1) else Compared0(c, v)
  }

  /** Where the branch goes when the condition is zero. */
  function Otherwise(c: Code, hasElse: bool): Block {
    if hasElse then c.count + 2 else c.count + 1
  }

  ghost function Tested(c: Code, v: Val, hasElse: bool): Code
    requires CodeOk(c)
  {
    Branch(Opened(c, v, hasElse), CondBr(Res(c.nextId), c.count, Otherwise(c, hasElse)), c.count)
  }

  /** What holds when the first of the two branches is about to be built. */
  ghost predicate TestReady(base: Code, c: Code, env: Env, v: Val, hasElse: bool) {
    && CodeOk(c) && Stage(base, Compared0(c, v), env) && Stage(base, Opened(c, v, hasElse), env) && Stage(base, Tested(c, v, hasElse), env)
    && var t := Tested(c, v, hasElse);
       && t.cur == c.count && AvailNow(t) == AvailNow(c) && t.body[t.cur] == []
       && t.count == c.count + (if hasElse then 3 else 2)
       && Fresh(t, c.count + 1, AvailNow(c))
       && (hasElse ==> CodeOk(Compared0(c, v)) && AvailNow(c) <= AvailNow(Compared0(c, v))
                       && Fresh(t, c.count + 2, AvailNow(Compared0(c, v))) && EnvAvail(env, AvailNow(Compared0(c, v))))
  }

  lemma Compared0Stage(base: Code, c: Code, env: Env, v: Val)
    requires Stage(base, c, env) && Usable(c, v)
    ensures CodeOk(c) && Stage(base, Compared0(c, v), env)
    ensures Create(c, 2).nextId == c.nextId && Compared0(c, v).count == c.count + 2 && Compared0(c, v).cur == c.cur
    ensures Fresh(Compared0(c, v), c.count, AvailNow(c)) && Fresh(Compared0(c, v), c.count + 1, AvailNow(c))
    ensures AvailNow(c) <= AvailNow(Compared0(c, v)) && UsesAvail(AvailNow(Compared0(c, v)), [Res(c.nextId)])
  {
    hide Certified, EnvOk, AvailNow, EnvAvail, Create, Stage;
    GoodFacts(base, c, env);
    CreateStage(base, c, env, 2);
    CreateParts(c, 2);
    CreateCount(c, 2);
    var i := Op(c.nextId, Icmp(Ne), [v, Const(0)]);
    StageFacts(base, Create(c, 2), env);
    Emit(base, Create(c, 2), env, i);
    AppendAvail(Create(c, 2), i);
    FreshEmit(Create(c, 2), i, c.count, AvailNow(c));
    FreshEmit(Create(c, 2), i, c.count + 1, AvailNow(c));
  }

  lemma TestStages(base: Code, c: Code, env: Env, v: Val, hasElse: bool)
    requires Stage(base, c, env) && Usable(c, v) && base.cur !in base.term
    ensures TestReady(base, c, env, v, hasElse)
  {
    hide Certified, EnvOk, AvailNow, EnvAvail, Create, Stage, Compared0, UsesAvail;
    GoodFacts(base, c, env);
    Compared0Stage(base, c, env, v);
    var c0 := Compared0(c, v);
    GoodFacts(base, c0, env);
    var c1 := Opened(c, v, hasElse);
    if hasElse {
      CreateStage(base, c0, env, 1);
      CreateParts(c0, 1);
      CreateCount(c0, 1);
      CreateOk(c0, 1);
      FreshKept(c0, c1, c.count, AvailNow(c));
      FreshKept(c0, c1, c.count + 1, AvailNow(c));
    }
    var t := CondBr(Res(c.nextId), c.count, Otherwise(c, hasElse));
    TestBranch(base, c, c1, env, hasElse, AvailNow(c), AvailNow(c0));
    FreshBranch(c1, t, c.count, c.count + 1, AvailNow(c));
    if hasElse {
      FreshBranch(c1, t, c.count, c.count + 2, AvailNow(c0));
    }
  }

  lemma TestBranch(base: Code, c: Code, c1: Code, env: Env, hasElse: bool, s: set<Id>, s1: set<Id>)
    requires Stage(base, c1, env) && base.cur !in base.term && CodeOk(base) && CodeOk(c1) && AvailNow(c1) == s1 && s <= s1
    requires 0 < base.count <= c.count && c1.count == c.count + (if hasElse then 3 else 2) && 0 <= c1.cur < c.count
    requires Fresh(c1, c.count, s) && Fresh(c1, c.count + 1, s) && (hasElse ==> Fresh(c1, c.count + 2, s1))
    requires AvailNow(base) <= s && EnvAvail(env, s) && UsesAvail(s1, [Res(c.nextId)])
    ensures var d := Branch(c1, CondBr(Res(c.nextId), c.count, Otherwise(c, hasElse)), c.count);
            Stage(base, d, env) && CodeOk(d) && AvailNow(d) == s
  {
    hide Certified, EnvOk, AvailNow, EnvAvail, Stage, UsesAvail;
    BranchStage(base, c1, env, CondBr(Res(c.nextId), c.count, Otherwise(c, hasElse)), c.count, s);
    StageFacts(base, Branch(c1, CondBr(Res(c.nextId), c.count, Otherwise(c, hasElse)), c.count), env);
  }

  lemma TestFacts(base: Code, c: Code, env: Env, v: Val, hasElse: bool)
    requires TestReady(base, c, env, v, hasElse)
    ensures var t := Tested(c, v, hasElse);
            && CodeOk(c) && CodeOk(t) && Stage(base, t, env) && t.cur !in t.term && t.cur == c.count && AvailNow(t) == AvailNow(c)
            && t.body[t.cur] == [] && t.count == c.count + (if hasElse then 3 else 2) && Fresh(t, c.count + 1, AvailNow(c))
    ensures CodeOk(Compared0(c, v)) && Compared0(c, v).cur !in Compared0(c, v).term
    ensures CodeOk(Opened(c, v, hasElse)) && Opened(c, v, hasElse).cur !in Opened(c, v, hasElse).term
    ensures hasElse ==> AvailNow(c) <= AvailNow(Compared0(c, v)) && Fresh(Tested(c, v, hasElse), c.count + 2, AvailNow(Compared0(c, v)))
                        && EnvAvail(env, AvailNow(Compared0(c, v)))
  {
    hide Certified, EnvOk, AvailNow, EnvAvail, Compared0, Opened, Tested, UsesAvail, Stage;
    StageFacts(base, Tested(c, v, hasElse), env);
    StageFacts(base, Compared0(c, v), env);
    StageFacts(base, Opened(c, v, hasElse), env);
  }

  lemma TestFinal(base: Code, c: Code, env: Env, v: Val, hasElse: bool, f: Func)
    requires TestReady(base, c, env, v, hasElse) && Stage(base, c, env) && CodeOk(c) && FinalOf(Tested(c, v, hasElse), f)
    ensures FinalOf(Compared0(c, v), f) && FinalOf(c, f)
  {
    hide FinalOf, TestReady, Stage;
    TestFacts(base, c, env, v, hasElse);
    StageFacts(base, c, env);
    FinalBranch(Opened(c, v, hasElse), CondBr(Res(c.nextId), c.count, Otherwise(c, hasElse)), c.count, f);
    if hasElse {
      CreateOk(Compared0(c, v), 1);
      FinalBack(Compared0(c, v), Create(Compared0(c, v), 1), f);
    }
    CreateOk(c, 2);
    FinalAppend(Create(c, 2), Op(c.nextId, Icmp(Ne), [v, Const(0)]), f);
    FinalBack(c, Create(c, 2), f);
  }

  /** The run comes to c', and its next step goes to d. */
  ghost predicate ComesBefore(w: World, base: Code, c: Code, d: Code, env: Env, r: Regs, r': Regs, scopes: Ast.Scopes, events: seq<Event>) {
    && CodeOk(base) && CodeOk(c) && CodeOk(d)
    && Comes(w, base, c, env, r, r', scopes, events) && Micro(w, Here(c, r')) == Here(d, r')
  }

  /** The test sends the run to the first branch, or to the other block. */
  lemma TestRuns(w: World, base: Code, c: Code, env: Env, v: Val, hasElse: bool, d: Code, r: Regs, r1: Regs, scopes: Ast.Scopes, events: seq<Event>)
    returns (r2: Regs)
    requires TestReady(base, c, env, v, hasElse) && Stage(base, c, env) && CodeOk(base) && CodeOk(c) && CodeOk(d)
    requires Comes(w, base, c, env, r, r1, scopes, events) && FinalOf(Tested(c, v, hasElse), w.f) && Ast.Standard(w.sem)
    requires d.body[d.cur] == [] && d.cur == if Eval(w.args, r1.env, v) != 0 then c.count else Otherwise(c, hasElse)
    ensures Comes(w, base, d, env, r, r2, scopes, events)
    ensures ComesBefore(w, base, Opened(c, v, hasElse), d, env, r, r2, scopes, events)
  {
    hide TestReady, Stage, CodeOk, EnvOk, AvailNow, Comes, KeepsEnv, FinalOf, Related, Eval;
    TestFacts(base, c, env, v, hasElse);
    TestFinal(base, c, env, v, hasElse, w.f);
    StageFacts(base, c, env);
    CreateStage(base, c, env, 2);
    StageFacts(base, Create(c, 2), env);
    CreateParts(c, 2);
    ComesCreate(w, base, c, 2, env, r, r1, scopes, events);
    EvalThree(w.args, r1.env, v, Const(0), v);
    EvalConst(w.args, r1.env, 0);
    r2 := PureStep(w, base, Create(c, 2), env, r, r1, scopes, events, Icmp(Ne), [v, Const(0)]);
    var o := Opened(c, v, hasElse);
    if hasElse {
      ComesCreate(w, base, Compared0(c, v), 1, env, r, r2, scopes, events);
    }
    var t := CondBr(Res(c.nextId), c.count, Otherwise(c, hasElse));
    BranchHere(w, o, t, c.count, r2);
    ComesBranch(w, base, o, t, c.count, d, env, r, r2, scopes, events);
  }

  // ----- joining -----

  lemma JoinStage(base: Code, t: Code, c: Code, env: Env, target: Block, next: Block, s: set<Id>)
    requires Stage(base, t, env) && Phase(t, c, env) && base.cur !in base.term && t.cur !in t.term
    requires CodeOk(base) && CodeOk(t) && CodeOk(c)
    requires base.count <= target < c.count && target in c.avail && c.avail[target] <= AvailNow(t)
    requires base.count <= next < c.count && next != c.cur && Fresh(c, next, s) && EnvAvail(env, s) && AvailNow(base) <= s
    ensures Stage(base, JoinTo(c, target, next), env) && CodeOk(JoinTo(c, target, next)) && AvailNow(JoinTo(c, target, next)) == s
  {
    hide Certified, EnvOk, EnvAvail, AvailNow, Stage, Grew, Phase;
    PhaseTrans(base, t, c, env);
    PhaseAvail(t, c, env);
    if c.cur !in c.term {
      StagePhase(base, c, env);
      GoodFacts(base, c, env);
      BranchStage(base, c, env, Br(target), next, s);
    } else {
      MovePhase(base, c, env, next, s);
    }
    StageFacts(base, JoinTo(c, target, next), env);
  }

  lemma PhaseAvail(t: Code, c: Code, env: Env)
    requires Phase(t, c, env)
    ensures CodeOk(t) && CodeOk(c) && (c.cur !in c.term ==> AvailNow(t) <= AvailNow(c))
  {
    hide Certified, EnvOk, EnvAvail, AvailNow, Grew;
  }

  lemma MovePhase(base: Code, c: Code, env: Env, next: Block, s: set<Id>)
    requires Phase(base, c, env) && CodeOk(base) && base.count <= next < c.count && Fresh(c, next, s) && EnvAvail(env, s)
    requires AvailNow(base) <= s
    ensures Stage(base, c.(cur := next), env) && CodeOk(c.(cur := next)) && AvailNow(c.(cur := next)) == s
  {
    hide Certified, EnvOk, EnvAvail, AvailNow;
    MoveOk(base, c, next);
    AvailFresh(c, next, s);
  }

  lemma FreshAcross(t: Code, c: Code, env: Env, b: Block, s: set<Id>)
    requires Phase(t, c, env) && Fresh(t, b, s) && b != t.cur && 0 <= b < t.count
    ensures Fresh(c, b, s) && b != c.cur
  {
    hide Certified, EnvOk, EnvAvail, AvailNow;
    FreshKept(t, c, b, s);
  }

  lemma FreshJoin(c: Code, target: Block, next: Block, b: Block, s: set<Id>)
    requires Fresh(c, b, s) && b != c.cur
    ensures Fresh(JoinTo(c, target, next), b, s)
  {
  }

  lemma FreshBody(c: Code, b: Block, s: set<Id>)
    requires Fresh(c, b, s)
    ensures b in c.body && c.body[b] == [] && b !in c.term
  {
  }

  // ----- if without else -----

  lemma IfRun(w: World, c: Code, c1: Code, c5: Code, d: Code, env: Env, isVoid: bool, scopes: Ast.Scopes, r: Regs,
              cond: Ast.Expr, v: Val, yes: Ast.Stmt, fuel: nat)
    requires ExprDone(c, c1, env, isVoid, cond, v) && CodeOk(c) && CodeOk(c1) && CodeOk(c5) && CodeOk(d)
    requires TestReady(c, c1, env, v, false) && StmtDone(Tested(c1, v, false), c5, env, isVoid, yes)
    requires d == JoinTo(c5, c1.count + 1, c1.count + 1) && d.cur == c1.count + 1 && d.body[d.cur] == [] && d.cur !in d.term
    requires Premise(w, d, env, scopes, r)
    ensures StmtRun(w, c, d, env, isVoid, scopes, r, Ast.If(cond, yes, None), fuel)
  {
    hide ExprDone, StmtDone, Stage, CodeOk, EnvOk, AvailNow, StmtRun, EffectRun, StmtRuns, ExprRuns, OutcomeRun, Phase, Ast.Eval, Comes, KeepsEnv, Eval,
      FinalOf, Related, Leaves, TestReady, Tested, Opened, Fresh, JoinTo;
    DoneFacts(c, c1, env, isVoid, cond, v);
    IfFinal(c, c1, c5, env, isVoid, v, yes, w.f);
    UseExpr(w, c, c1, env, isVoid, scopes, r, cond, v);
    RunOutcome(w, c, c1, env, isVoid, scopes, r, cond, v);
    var o := Ast.Eval(w.sem, scopes, r.events, cond);
    if !o.Value? {
      OutcomeExit(w, c, c1, env, isVoid, r, o, v);
      ExitRun(w, c, d, env, isVoid, r, o, fuel);
    } else {
      var r1 := OutcomeValue(w, c, c1, env, isVoid, r, o, v);
      IfValueRun(w, c, c1, c5, d, env, isVoid, r, r1, o.scopes, o.events, v, yes, fuel);
    }
    RunIntro(w, c, d, env, isVoid, scopes, r, Ast.If(cond, yes, None), fuel);
  }

  lemma IfFinal(c: Code, c1: Code, c5: Code, env: Env, isVoid: bool, v: Val, yes: Ast.Stmt, f: Func)
    requires CodeOk(c1) && Stage(c, c1, env) && TestReady(c, c1, env, v, false) && StmtDone(Tested(c1, v, false), c5, env, isVoid, yes)
    requires FinalOf(JoinTo(c5, c1.count + 1, c1.count + 1), f)
    ensures FinalOf(Tested(c1, v, false), f) && FinalOf(c1, f)
  {
    hide StmtDone, Stage, CodeOk, FinalOf, TestReady, Tested, StmtRuns, Phase, JoinTo;
    var t := Tested(c1, v, false);
    StmtFacts(t, c5, env, isVoid, yes);
    JoinFinal(c5, c1.count + 1, c1.count + 1, f);
    PhaseFinal(t, c5, env, f);
    TestFinal(c, c1, env, v, false, f);
  }

  lemma IfValueRun(w: World, c: Code, c1: Code, c5: Code, d: Code, env: Env, isVoid: bool, r: Regs, r1: Regs, scopes: Ast.Scopes,
                   events: seq<Event>, v: Val, yes: Ast.Stmt, fuel: nat)
    requires CodeOk(c) && CodeOk(c1) && CodeOk(c5) && CodeOk(d) && Stage(c, c1, env) && Ast.Standard(w.sem)
    requires TestReady(c, c1, env, v, false) && StmtDone(Tested(c1, v, false), c5, env, isVoid, yes)
    requires d == JoinTo(c5, c1.count + 1, c1.count + 1) && d.cur == c1.count + 1 && d.body[d.cur] == [] && d.cur !in d.term
    requires FinalOf(Tested(c1, v, false), w.f) && FinalOf(d, w.f) && Comes(w, c, c1, env, r, r1, scopes, events)
    ensures EffectRun(w, c, d, env, r, if Eval(w.args, r1.env, v) != 0 then Ast.Exec(w.sem, isVoid, scopes, events, yes, fuel)
                                       else Ast.Normal(scopes, events), fuel)
  {
    hide StmtDone, Stage, CodeOk, EffectRun, StmtRuns, Phase, Ast.Exec, Comes, KeepsEnv, Eval, FinalOf, Related, TestReady, Tested, Opened, Fresh, JoinTo;
    var t := Tested(c1, v, false);
    TestFacts(c, c1, env, v, false);
    StageFacts(c, t, env);
    if Eval(w.args, r1.env, v) != 0 {
      var r2 := TestRuns(w, c, c1, env, v, false, t, r, r1, scopes, events);
      BranchRun(w, c, t, c5, d, env, isVoid, r, r2, scopes, events, yes, fuel, c1.count + 1, c1.count + 1);
    } else {
      var r2 := TestRuns(w, c, c1, env, v, false, d, r, r1, scopes, events);
      NormalRun(w, c, d, env, r, r2, scopes, events, fuel);
    }
  }

  /** One branch, from its first block to the block where the branches join. */
  lemma BranchRun(w: World, c: Code, t: Code, c5: Code, d: Code, env: Env, isVoid: bool, r: Regs, r2: Regs, scopes: Ast.Scopes, events: seq<Event>,
                  s: Ast.Stmt, fuel: nat, target: Block, next: Block)
    requires CodeOk(c) && CodeOk(t) && CodeOk(c5) && CodeOk(d) && c.nextId <= t.nextId && StmtDone(t, c5, env, isVoid, s)
    requires Comes(w, c, t, env, r, r2, scopes, events) && FinalOf(JoinTo(c5, target, next), w.f) && Ast.Standard(w.sem)
    requires d.cur == target && d.body[target] == [] && target !in d.term
    ensures EffectRun(w, c, d, env, r, Ast.Exec(w.sem, isVoid, scopes, events, s, fuel), fuel)
  {
    hide StmtDone, CodeOk, EnvOk, EffectRun, StmtRuns, Phase, Ast.Exec, Comes, KeepsEnv, FinalOf, Related;
    StmtFacts(t, c5, env, isVoid, s);
    JoinFinal(c5, target, next, w.f);
    ComesFacts(w, c, t, env, r, r2, scopes, events);
    UseStmt(w, t, c5, env, isVoid, scopes, r2, s, fuel);
    var eff := Ast.Exec(w.sem, isVoid, scopes, events, s, fuel);
    EffectAfter(w, c, t, c5, env, r, r2, scopes, events, eff, fuel);
    EffectJoin(w, c, c5, d, env, r, eff, fuel, target, next);
  }

  lemma NormalRun(w: World, c: Code, d: Code, env: Env, r: Regs, r': Regs, scopes: Ast.Scopes, events: seq<Event>, fuel: nat)
    requires CodeOk(c) && CodeOk(d) && d.cur !in d.term && Comes(w, c, d, env, r, r', scopes, events)
    ensures EffectRun(w, c, d, env, r, Ast.Normal(scopes, events), fuel)
  {
    hide Comes;
  }

  lemma IfDone(c: Code, c1: Code, c5: Code, env: Env, isVoid: bool, cond: Ast.Expr, v: Val, yes: Ast.Stmt)
    requires ExprDone(c, c1, env, isVoid, cond, v) && c.cur !in c.term && CodeOk(c1)
    requires StmtDone(Tested(c1, v, false), c5, env, isVoid, yes)
    ensures StmtDone(c, JoinTo(c5, c1.count + 1, c1.count + 1), env, isVoid, Ast.If(cond, yes, None))
    ensures var d := JoinTo(c5, c1.count + 1, c1.count + 1); d.cur !in d.term
  {
    hide ExprDone, StmtDone, Stage, CodeOk, EnvOk, AvailNow, EnvAvail, StmtRun, Phase, Premise, TestReady, Tested, Opened, Fresh, ExprRuns, StmtRuns, Usable;
    var t := Tested(c1, v, false);
    var k := c1.count + 1;
    var d := JoinTo(c5, k, k);
    DoneFacts(c, c1, env, isVoid, cond, v);
    DoneUsable(c, c1, env, isVoid, cond, v);
    TestStages(c, c1, env, v, false);
    TestFacts(c, c1, env, v, false);
    StmtFacts(t, c5, env, isVoid, yes);
    GoodFacts(c, c1, env);
    FreshAcross(t, c5, env, k, AvailNow(c1));
    FreshAvail(c5, k, AvailNow(c1));
    JoinStage(c, t, c5, env, k, k, AvailNow(c1));
    FreshJoin(c5, k, k, k, AvailNow(c1));
    FreshBody(d, k, AvailNow(c1));
    StagePhase(c, d, env);
    forall w, scopes, r, fuel: nat | Premise(w, d, env, scopes, r)
      ensures StmtRun(w, c, d, env, isVoid, scopes, r, Ast.If(cond, yes, None), fuel)
    {
      IfRun(w, c, c1, c5, d, env, isVoid, scopes, r, cond, v, yes, fuel);
    }
    StmtIntro(c, d, env, isVoid, Ast.If(cond, yes, None));
  }

  lemma FreshAvail(c: Code, b: Block, s: set<Id>)
    requires Fresh(c, b, s)
    ensures b in c.avail && c.avail[b] == s
  {
  }

  // ----- if with else -----

  lemma ElseFinal(c: Code, c1: Code, c5: Code, c7: Code, env: Env, isVoid: bool, v: Val, yes: Ast.Stmt, no: Ast.Stmt, f: Func)
    requires CodeOk(c1) && Stage(c, c1, env) && TestReady(c, c1, env, v, true) && StmtDone(Tested(c1, v, true), c5, env, isVoid, yes)
    requires StmtDone(JoinTo(c5, c1.count + 1, c1.count + 2), c7, env, isVoid, no)
    requires FinalOf(JoinTo(c7, c1.count + 1, c1.count + 1), f)
    ensures FinalOf(JoinTo(c5, c1.count + 1, c1.count + 2), f) && FinalOf(Tested(c1, v, true), f) && FinalOf(c1, f)
  {
    hide StmtDone, Stage, CodeOk, FinalOf, TestReady, Tested, StmtRuns, Phase, JoinTo;
    var t := Tested(c1, v, true);
    var c6 := JoinTo(c5, c1.count + 1, c1.count + 2);
    StmtFacts(t, c5, env, isVoid, yes);
    StmtFacts(c6, c7, env, isVoid, no);
    JoinFinal(c7, c1.count + 1, c1.count + 1, f);
    PhaseFinal(c6, c7, env, f);
    JoinFinal(c5, c1.count + 1, c1.count + 2, f);
    PhaseFinal(t, c5, env, f);
    TestFinal(c, c1, env, v, true, f);
  }

  lemma ElseValueRun(w: World, c: Code, c1: Code, c5: Code, c7: Code, d: Code, env: Env, isVoid: bool, r: Regs, r1: Regs, scopes: Ast.Scopes,
                     events: seq<Event>, v: Val, yes: Ast.Stmt, no: Ast.Stmt, fuel: nat)
    requires CodeOk(c) && CodeOk(c1) && CodeOk(c5) && CodeOk(c7) && CodeOk(d) && Stage(c, c1, env) && Ast.Standard(w.sem)
    requires TestReady(c, c1, env, v, true) && StmtDone(Tested(c1, v, true), c5, env, isVoid, yes)
    requires var c6 := JoinTo(c5, c1.count + 1, c1.count + 2);
             CodeOk(c6) && StmtDone(c6, c7, env, isVoid, no) && c6.cur == c1.count + 2 && c6.body[c6.cur] == [] && FinalOf(c6, w.f)
             && c.nextId <= c6.nextId
    requires d == JoinTo(c7, c1.count + 1, c1.count + 1) && d.cur == c1.count + 1 && d.body[d.cur] == [] && d.cur !in d.term
    requires FinalOf(Tested(c1, v, true), w.f) && FinalOf(d, w.f) && Comes(w, c, c1, env, r, r1, scopes, events)
    ensures EffectRun(w, c, d, env, r, if Eval(w.args, r1.env, v) != 0 then Ast.Exec(w.sem, isVoid, scopes, events, yes, fuel)
                                       else Ast.Exec(w.sem, isVoid, scopes, events, no, fuel), fuel)
  {
    hide StmtDone, Stage, CodeOk, EffectRun, StmtRuns, Phase, Ast.Exec, Comes, KeepsEnv, Eval, FinalOf, Related, TestReady, Tested, Opened, Fresh, JoinTo;
    var t := Tested(c1, v, true);
    TestFacts(c, c1, env, v, true);
    StageFacts(c, t, env);
    if Eval(w.args, r1.env, v) != 0 {
      var r2 := TestRuns(w, c, c1, env, v, true, t, r, r1, scopes, events);
      BranchRun(w, c, t, c5, d, env, isVoid, r, r2, scopes, events, yes, fuel, c1.count + 1, c1.count + 2);
    } else {
      var c6 := JoinTo(c5, c1.count + 1, c1.count + 2);
      var r2 := TestRuns(w, c, c1, env, v, true, c6, r, r1, scopes, events);
      BranchRun(w, c, c6, c7, d, env, isVoid, r, r2, scopes, events, no, fuel, c1.count + 1, c1.count + 1);
    }
  }

  lemma ElseRun(w: World, c: Code, c1: Code, c5: Code, c7: Code, d: Code, env: Env, isVoid: bool, scopes: Ast.Scopes, r: Regs,
                cond: Ast.Expr, v: Val, yes: Ast.Stmt, no: Ast.Stmt, fuel: nat)
    requires ExprDone(c, c1, env, isVoid, cond, v) && CodeOk(c) && CodeOk(c1) && CodeOk(c5) && CodeOk(c7) && CodeOk(d)
    requires TestReady(c, c1, env, v, true) && StmtDone(Tested(c1, v, true), c5, env, isVoid, yes)
    requires var c6 := JoinTo(c5, c1.count + 1, c1.count + 2);
             CodeOk(c6) && StmtDone(c6, c7, env, isVoid, no) && c6.cur == c1.count + 2 && c6.body[c6.cur] == [] && c.nextId <= c6.nextId
    requires d == JoinTo(c7, c1.count + 1, c1.count + 1) && d.cur == c1.count + 1 && d.body[d.cur] == [] && d.cur !in d.term
    requires Premise(w, d, env, scopes, r)
    ensures StmtRun(w, c, d, env, isVoid, scopes, r, Ast.If(cond, yes, Some(no)), fuel)
  {
    hide ExprDone, StmtDone, Stage, CodeOk, EnvOk, AvailNow, StmtRun, EffectRun, StmtRuns, ExprRuns, OutcomeRun, Phase, Ast.Eval, Comes, KeepsEnv, Eval,
      FinalOf, Related, Leaves, TestReady, Tested, Opened, Fresh, JoinTo;
    DoneFacts(c, c1, env, isVoid, cond, v);
    ElseFinal(c, c1, c5, c7, env, isVoid, v, yes, no, w.f);
    UseExpr(w, c, c1, env, isVoid, scopes, r, cond, v);
    RunOutcome(w, c, c1, env, isVoid, scopes, r, cond, v);
    var o := Ast.Eval(w.sem, scopes, r.events, cond);
    if !o.Value? {
      OutcomeExit(w, c, c1, env, isVoid, r, o, v);
      ExitRun(w, c, d, env, isVoid, r, o, fuel);
    } else {
      var r1 := OutcomeValue(w, c, c1, env, isVoid, r, o, v);
      ElseValueRun(w, c, c1, c5, c7, d, env, isVoid, r, r1, o.scopes, o.events, v, yes, no, fuel);
    }
    RunIntro(w, c, d, env, isVoid, scopes, r, Ast.If(cond, yes, Some(no)), fuel);
  }

  /** After the first branch the else block is ready. */
  lemma ElseReady(c: Code, c1: Code, c5: Code, env: Env, isVoid: bool, cond: Ast.Expr, v: Val, yes: Ast.Stmt)
    requires ExprDone(c, c1, env, isVoid, cond, v) && c.cur !in c.term && CodeOk(c1)
    requires StmtDone(Tested(c1, v, true), c5, env, isVoid, yes)
    ensures TestReady(c, c1, env, v, true) && Stage(c, JoinTo(c5, c1.count + 1, c1.count + 2), env)
    ensures var c6 := JoinTo(c5, c1.count + 1, c1.count + 2);
            CodeOk(c6) && c6.cur == c1.count + 2 && c6.cur !in c6.term && c6.body[c6.cur] == []
            && Fresh(c6, c1.count + 1, AvailNow(c1)) && c1.count + 2 < c6.count && AvailNow(c1) <= AvailNow(c6) && Good(c6, env)
  {
    hide ExprDone, StmtDone, CodeOk, EnvOk, AvailNow, EnvAvail, Phase, TestReady, Tested, Fresh, ExprRuns, StmtRuns, Usable, Certified, Compared0;
    var t := Tested(c1, v, true);
    var k, e := c1.count + 1, c1.count + 2;
    DoneFacts(c, c1, env, isVoid, cond, v);
    DoneUsable(c, c1, env, isVoid, cond, v);
    TestStages(c, c1, env, v, true);
    TestFacts(c, c1, env, v, true);
    var s := AvailNow(Compared0(c1, v));
    StmtFacts(t, c5, env, isVoid, yes);
    GoodFacts(c, c1, env);
    FreshAcross(t, c5, env, k, AvailNow(c1));
    FreshAcross(t, c5, env, e, s);
    FreshAvail(c5, k, AvailNow(c1));
    JoinStage(c, t, c5, env, k, e, s);
    FreshJoin(c5, k, e, k, AvailNow(c1));
    FreshJoin(c5, k, e, e, s);
    FreshBody(JoinTo(c5, k, e), e, s);
  }

  lemma IfElseDone(c: Code, c1: Code, c5: Code, c7: Code, env: Env, isVoid: bool, cond: Ast.Expr, v: Val, yes: Ast.Stmt, no: Ast.Stmt)
    requires ExprDone(c, c1, env, isVoid, cond, v) && c.cur !in c.term && CodeOk(c1)
    requires StmtDone(Tested(c1, v, true), c5, env, isVoid, yes)
    requires StmtDone(JoinTo(c5, c1.count + 1, c1.count + 2), c7, env, isVoid, no)
    ensures StmtDone(c, JoinTo(c7, c1.count + 1, c1.count + 1), env, isVoid, Ast.If(cond, yes, Some(no)))
    ensures var d := JoinTo(c7, c1.count + 1, c1.count + 1); d.cur !in d.term
  {
    hide ExprDone, StmtDone, Stage, CodeOk, EnvOk, AvailNow, EnvAvail, StmtRun, Phase, Premise, TestReady, Tested, Opened, Fresh, ExprRuns, StmtRuns, Good;
    var k := c1.count + 1;
    var c6 := JoinTo(c5, k, c1.count + 2);
    var d := JoinTo(c7, k, k);
    DoneFacts(c, c1, env, isVoid, cond, v);
    ElseReady(c, c1, c5, env, isVoid, cond, v, yes);
    StmtFacts(Tested(c1, v, true), c5, env, isVoid, yes);
    StmtFacts(c6, c7, env, isVoid, no);
    StageFacts(c, c6, env);
    GoodFacts(c, c1, env);
    FreshAcross(c6, c7, env, k, AvailNow(c1));
    FreshAvail(c7, k, AvailNow(c1));
    JoinStage(c, c6, c7, env, k, k, AvailNow(c1));
    FreshJoin(c7, k, k, k, AvailNow(c1));
    FreshBody(d, k, AvailNow(c1));
    StagePhase(c, d, env);
    forall w, scopes, r, fuel: nat | Premise(w, d, env, scopes, r)
      ensures StmtRun(w, c, d, env, isVoid, scopes, r, Ast.If(cond, yes, Some(no)), fuel)
    {
      ElseRun(w, c, c1, c5, c7, d, env, isVoid, scopes, r, cond, v, yes, no, fuel);
    }
    StmtIntro(c, d, env, isVoid, Ast.If(cond, yes, Some(no)));
  }

  // ----- while -----

  /** The loop head, which the current block branches to. */
  ghost function Headed(c: Code): Code
    requires CodeOk(c)
  {
    Branch(Create(c, 1), Br(c.count), c.count)
  }

  lemma HeadStage(c: Code, env: Env)
    requires Good(c, env) && c.cur !in c.term
    ensures CodeOk(c) && Stage(c, Headed(c), env) && Good(Headed(c), env)
    ensures Headed(c).cur == c.count && Headed(c).body[c.count] == [] && c.count in Headed(c).avail
    ensures Headed(c).avail[c.count] == AvailNow(Headed(c)) && AvailNow(Headed(c)) == AvailNow(c) && Headed(c).count == c.count + 1
  {
    hide Certified, EnvOk, AvailNow, EnvAvail, Create;
    StageStart(c, env);
    GoodFacts(c, c, env);
    CreateStage(c, c, env, 1);
    CreateParts(c, 1);
    CreateCount(c, 1);
    BranchStage(c, Create(c, 1), env, Br(c.count), c.count, AvailNow(c));
  }

  /** One time round: the loop body has come back to the head. */
  lemma LoopBack(w: World, h: Code, c7: Code, next: Block, env: Env, r: Regs, r': Regs, scopes: Ast.Scopes, events: seq<Event>)
    requires CodeOk(h) && CodeOk(c7) && c7.cur !in c7.term && FinalOf(Branch(c7, Br(h.cur), next), w.f) && h.body[h.cur] == []
    requires Comes(w, h, c7, env, r, r', scopes, events)
    ensures Comes(w, h, h, env, r, r', scopes, events) && Micro(w, Here(c7, r')) == Here(h, r')
  {
    hide Related, Reaches, KeepsEnv;
    BranchHere(w, c7, Br(h.cur), next, r');
    ComesBranch(w, h, c7, Br(h.cur), next, h, env, r, r', scopes, events);
  }

  /** What the parts of a loop's code are. */
  ghost predicate LoopParts(h: Code, c3: Code, c7: Code, d: Code, env: Env, isVoid: bool, cond: Ast.Expr, v: Val, body: Ast.Stmt) {
    && CodeOk(h) && CodeOk(c3) && CodeOk(c7) && CodeOk(d) && h.body[h.cur] == []
    && ExprDone(h, c3, env, isVoid, cond, v) && TestReady(h, c3, env, v, false)
    && StmtDone(Tested(c3, v, false), c7, env, isVoid, body)
    && d == JoinTo(c7, h.cur, c3.count + 1) && d.cur == c3.count + 1 && d.body[d.cur] == [] && d.cur !in d.term
  }

  lemma LoopFacts(h: Code, c3: Code, c7: Code, d: Code, env: Env, isVoid: bool, cond: Ast.Expr, v: Val, body: Ast.Stmt, f: Func)
    requires LoopParts(h, c3, c7, d, env, isVoid, cond, v, body) && FinalOf(d, f)
    ensures FinalOf(Tested(c3, v, false), f) && FinalOf(c3, f) && FinalOf(c7, f) && FinalOf(h, f)
    ensures Stage(h, c3, env) && ExprRuns(h, c3, env, isVoid, cond, v) && CodeOk(Tested(c3, v, false))
    ensures StmtRuns(Tested(c3, v, false), c7, env, isVoid, body) && h.nextId <= Tested(c3, v, false).nextId
    ensures Tested(c3, v, false).cur == c3.count && Tested(c3, v, false).body[c3.count] == []
  {
    hide ExprDone, StmtDone, Stage, CodeOk, FinalOf, TestReady, Tested, StmtRuns, ExprRuns, Phase, JoinTo;
    var t := Tested(c3, v, false);
    DoneFacts(h, c3, env, isVoid, cond, v);
    TestFacts(h, c3, env, v, false);
    StageFacts(h, t, env);
    StmtFacts(t, c7, env, isVoid, body);
    JoinFinal(c7, h.cur, c3.count + 1, f);
    PhaseFinal(t, c7, env, f);
    TestFinal(h, c3, env, v, false, f);
    StageFinal(h, c3, env, f);
  }

  /** From the loop head: by induction on the fuel. */
  lemma {:induction false} LoopRun(w: World, h: Code, c3: Code, c7: Code, d: Code, env: Env, isVoid: bool, cond: Ast.Expr, v: Val, body: Ast.Stmt,
                                   scopes: Ast.Scopes, r: Regs, fuel: nat)
    requires LoopParts(h, c3, c7, d, env, isVoid, cond, v, body) && CodeOk(h) && CodeOk(d) && Premise(w, d, env, scopes, r)
    ensures EffectRun(w, h, d, env, r, Ast.Exec(w.sem, isVoid, scopes, r.events, Ast.While(cond, body), fuel), fuel)
    decreases fuel, 1
  {
    hide LoopParts, CodeOk, EffectRun, ExprRuns, StmtRuns, OutcomeRun, Ast.Eval, Ast.Exec, Comes, KeepsEnv, Eval, FinalOf, Related, Leaves, Tested,
      Stage, Phase, ExprDone, StmtDone;
    LoopFacts(h, c3, c7, d, env, isVoid, cond, v, body, w.f);
    LoopCodes(h, c3, c7, d, env, isVoid, cond, v, body);
    UseExpr(w, h, c3, env, isVoid, scopes, r, cond, v);
    RunOutcome(w, h, c3, env, isVoid, scopes, r, cond, v);
    var o := Ast.Eval(w.sem, scopes, r.events, cond);
    ExecWhile(w.sem, isVoid, scopes, r.events, cond, body, fuel);
    if !o.Value? {
      OutcomeExit(w, h, c3, env, isVoid, r, o, v);
      ExitRun(w, h, d, env, isVoid, r, o, fuel);
    } else {
      var r1 := OutcomeValue(w, h, c3, env, isVoid, r, o, v);
      if o.v == 0 {
        var r2 := TestRuns(w, h, c3, env, v, false, d, r, r1, o.scopes, o.events);
        NormalRun(w, h, d, env, r, r2, o.scopes, o.events, fuel);
      } else {
        LoopBody(w, h, c3, c7, d, env, isVoid, cond, v, body, r, r1, o.scopes, o.events, fuel);
      }
    }
  }

  lemma LoopCodes(h: Code, c3: Code, c7: Code, d: Code, env: Env, isVoid: bool, cond: Ast.Expr, v: Val, body: Ast.Stmt)
    requires LoopParts(h, c3, c7, d, env, isVoid, cond, v, body)
    ensures CodeOk(h) && CodeOk(c3) && CodeOk(c7) && CodeOk(d) && h.body[h.cur] == [] && TestReady(h, c3, env, v, false)
    ensures d == JoinTo(c7, h.cur, c3.count + 1) && d.cur == c3.count + 1 && d.body[d.cur] == [] && d.cur !in d.term
  {
    hide CodeOk, ExprDone, StmtDone, TestReady, JoinTo;
  }

  lemma ExecWhile(sem: Sem, isVoid: bool, scopes: Ast.Scopes, events: seq<Event>, cond: Ast.Expr, body: Ast.Stmt, fuel: nat)
    ensures Ast.Exec(sem, isVoid, scopes, events, Ast.While(cond, body), fuel) ==
            var o := Ast.Eval(sem, scopes, events, cond);
            if !o.Value? then Ast.ExprEffect(isVoid, o)
            else if o.v == 0 then Ast.Normal(o.scopes, o.events)
            else WhileBody(sem, isVoid, o.scopes, o.events, cond, body, fuel)
  {
    hide Ast.Eval;
  }

  /** What is left of the loop when its condition holds. */
  ghost function WhileBody(sem: Sem, isVoid: bool, scopes: Ast.Scopes, events: seq<Event>, cond: Ast.Expr, body: Ast.Stmt, fuel: nat): Ast.Effect {
    if fuel == 0 then Ast.OutOfFuel(events)
    else
      var b := Ast.Exec(sem, isVoid, scopes, events, body, fuel - 1);
      if b.Normal? then Ast.Exec(sem, isVoid, b.scopes, b.events, Ast.While(cond, body), fuel - 1) else b
  }

  lemma OutOfFuelRun(w: World, c: Code, d: Code, env: Env, r: Regs, events: seq<Event>, fuel: nat)
    requires CodeOk(c) && CodeOk(d) && RunsOn(w, Here(c, r), fuel, events)
    ensures EffectRun(w, c, d, env, r, Ast.OutOfFuel(events), fuel)
  {
  }

  lemma RunsOnStart(w: World, c: Code, r: Regs)
    requires CodeOk(c)
    ensures RunsOn(w, Here(c, r), 0, r.events)
  {
    assert RunningAt(w, Here(c, r), 0, r.events);
  }

  lemma OutOfFuelAfter(w: World, h: Code, c3: Code, d: Code, env: Env, r: Regs, r1: Regs, scopes: Ast.Scopes, events: seq<Event>)
    requires CodeOk(h) && CodeOk(c3) && CodeOk(d) && Comes(w, h, c3, env, r, r1, scopes, events) && RunsOn(w, Here(c3, r1), 0, events)
    ensures EffectRun(w, h, d, env, r, Ast.OutOfFuel(events), 0)
  {
    hide Related, KeepsEnv, Reaches, RunsOn;
    RunsOnAfter(w, Here(h, r), Here(c3, r1), 0, events);
    OutOfFuelRun(w, h, d, env, r, events, 0);
  }

  /** From where the condition has been found to hold. */
  lemma {:induction false} LoopBody(w: World, h: Code, c3: Code, c7: Code, d: Code, env: Env, isVoid: bool, cond: Ast.Expr, v: Val, body: Ast.Stmt,
                                    r: Regs, r1: Regs, scopes: Ast.Scopes, events: seq<Event>, fuel: nat)
    requires LoopParts(h, c3, c7, d, env, isVoid, cond, v, body) && CodeOk(h) && CodeOk(c3) && CodeOk(d)
    requires FinalOf(d, w.f) && Ast.Standard(w.sem) && Comes(w, h, c3, env, r, r1, scopes, events) && Eval(w.args, r1.env, v) != 0
    ensures EffectRun(w, h, d, env, r, WhileBody(w.sem, isVoid, scopes, events, cond, body, fuel), fuel)
    decreases fuel, 0
  {
    hide LoopParts, CodeOk, EffectRun, ExprRuns, StmtRuns, Ast.Exec, Comes, KeepsEnv, Eval, FinalOf, Related, Leaves, Tested, Stage, Phase, RunsOn,
      Opened, JoinTo;
    if fuel == 0 {
      ComesFacts(w, h, c3, env, r, r1, scopes, events);
      RunsOnStart(w, c3, r1);
      OutOfFuelAfter(w, h, c3, d, env, r, r1, scopes, events);
    } else {
      var t := Tested(c3, v, false);
      LoopFacts(h, c3, c7, d, env, isVoid, cond, v, body, w.f);
      LoopCodes(h, c3, c7, d, env, isVoid, cond, v, body);
      var r2 := TestRuns(w, h, c3, env, v, false, t, r, r1, scopes, events);
      ComesFacts(w, h, t, env, r, r2, scopes, events);
      UseStmt(w, t, c7, env, isVoid, scopes, r2, body, fuel - 1);
      var b := Ast.Exec(w.sem, isVoid, scopes, events, body, fuel - 1);
      EffectAfter(w, h, t, c7, env, r, r2, scopes, events, b, fuel - 1);
      if b.Normal? {
        var r3 := NormalFacts(w, h, c7, env, r, b, fuel - 1);
        JoinIsBranch(c7, h.cur, c3.count + 1);
        LoopBack(w, h, c7, c3.count + 1, env, r, r3, b.scopes, b.events);
        ComesFacts(w, h, h, env, r, r3, b.scopes, b.events);
        LoopRun(w, h, c3, c7, d, env, isVoid, cond, v, body, b.scopes, r3, fuel - 1);
        var rest := Ast.Exec(w.sem, isVoid, b.scopes, b.events, Ast.While(cond, body), fuel - 1);
        LoopAgain(w, h, c7, d, env, r, r3, b.scopes, b.events, rest, fuel);
      } else {
        BodyEnds(w, h, c3, c7, d, env, isVoid, r, r2, scopes, events, v, b, fuel);
      }
    }
  }

  lemma NormalFacts(w: World, c: Code, c': Code, env: Env, r: Regs, eff: Ast.Effect, fuel: nat) returns (r': Regs)
    requires CodeOk(c) && CodeOk(c') && eff.Normal? && EffectRun(w, c, c', env, r, eff, fuel)
    ensures c'.cur !in c'.term && Comes(w, c, c', env, r, r', eff.scopes, eff.events)
  {
    hide CodeOk, Comes;
    var q :| Comes(w, c, c', env, r, q, eff.scopes, eff.events);
    r' := q;
  }

  lemma JoinIsBranch(c: Code, target: Block, next: Block)
    requires c.cur !in c.term
    ensures JoinTo(c, target, next) == Branch(c, Br(target), next)
  {
  }

  /** The rest of the loop, after one time round. */
  lemma LoopAgain(w: World, h: Code, c7: Code, d: Code, env: Env, r: Regs, r3: Regs, scopes: Ast.Scopes, events: seq<Event>,
                  eff: Ast.Effect, fuel: nat)
    requires CodeOk(h) && CodeOk(c7) && CodeOk(d) && fuel > 0
    requires Comes(w, h, c7, env, r, r3, scopes, events) && Comes(w, h, h, env, r, r3, scopes, events)
    requires Micro(w, Here(c7, r3)) == Here(h, r3) && EffectRun(w, h, d, env, r3, eff, fuel - 1)
    ensures EffectRun(w, h, d, env, r, eff, fuel)
  {
    hide CodeOk, Related, KeepsEnv, Reaches, RunsOn, Micro;
    if eff.OutOfFuel? {
      ReachesRefl(w, Here(h, r3));
      RunsOnLonger(w, Here(c7, r3), Here(h, r3), fuel - 1, eff.events);
      RunsOnAfter(w, Here(h, r), Here(c7, r3), fuel, eff.events);
    } else {
      EffectAfter(w, h, h, d, env, r, r3, scopes, events, eff, fuel - 1);
    }
  }

  /** The body returned, went wrong, or does not end. */
  lemma BodyEnds(w: World, h: Code, c3: Code, c7: Code, d: Code, env: Env, isVoid: bool, r: Regs, r2: Regs, scopes: Ast.Scopes, events: seq<Event>,
                 v: Val, eff: Ast.Effect, fuel: nat)
    requires CodeOk(h) && CodeOk(c3) && CodeOk(c7) && CodeOk(d) && fuel > 0 && CodeOk(Tested(c3, v, false))
    requires ComesBefore(w, h, Opened(c3, v, false), Tested(c3, v, false), env, r, r2, scopes, events)
    requires !eff.Normal? && EffectRun(w, h, c7, env, r, eff, fuel - 1)
    requires eff.OutOfFuel? ==> RunsOn(w, Here(Tested(c3, v, false), r2), fuel - 1, eff.events)
    ensures EffectRun(w, h, d, env, r, eff, fuel)
  {
    hide CodeOk, Related, KeepsEnv, Reaches, RunsOn, Micro, Tested, Opened;
    if eff.OutOfFuel? {
      var t := Tested(c3, v, false);
      ReachesRefl(w, Here(t, r2));
      RunsOnLonger(w, Here(Opened(c3, v, false), r2), Here(t, r2), fuel - 1, eff.events);
      RunsOnAfter(w, Here(h, r), Here(Opened(c3, v, false), r2), fuel, eff.events);
    }
  }

  lemma WhileRun(w: World, c: Code, c3: Code, c7: Code, d: Code, env: Env, isVoid: bool, cond: Ast.Expr, v: Val, body: Ast.Stmt,
                 scopes: Ast.Scopes, r: Regs, fuel: nat)
    requires Good(c, env) && c.cur !in c.term && CodeOk(c) && CodeOk(d)
    requires LoopParts(Headed(c), c3, c7, d, env, isVoid, cond, v, body) && Premise(w, d, env, scopes, r)
    ensures StmtRun(w, c, d, env, isVoid, scopes, r, Ast.While(cond, body), fuel)
  {
    hide Good, LoopParts, CodeOk, EffectRun, StmtRun, Ast.Exec, Comes, FinalOf, Related, Stage;
    var h := Headed(c);
    LoopCodes(h, c3, c7, d, env, isVoid, cond, v, body);
    LoopFacts(h, c3, c7, d, env, isVoid, cond, v, body, w.f);
    CreateOk(c, 1);
    HeadStage(c, env);
    StageFacts(c, h, env);
    FinalBranch(Create(c, 1), Br(c.count), c.count, w.f);
    ComesRefl(w, c, env, r, scopes);
    ComesCreate(w, c, c, 1, env, r, r, scopes, r.events);
    ComesBranch(w, c, Create(c, 1), Br(c.count), c.count, h, env, r, r, scopes, r.events);
    LoopRun(w, h, c3, c7, d, env, isVoid, cond, v, body, scopes, r, fuel);
    EffectAfter(w, c, h, d, env, r, r, scopes, r.events, Ast.Exec(w.sem, isVoid, scopes, r.events, Ast.While(cond, body), fuel), fuel);
    RunIntro(w, c, d, env, isVoid, scopes, r, Ast.While(cond, body), fuel);
  }

  lemma WhileDone(c: Code, c3: Code, c7: Code, env: Env, isVoid: bool, cond: Ast.Expr, v: Val, body: Ast.Stmt)
    requires Good(c, env) && c.cur !in c.term && CodeOk(c)
    requires ExprDone(Headed(c), c3, env, isVoid, cond, v) && CodeOk(c3) && StmtDone(Tested(c3, v, false), c7, env, isVoid, body)
    ensures StmtDone(c, JoinTo(c7, c.count, c3.count + 1), env, isVoid, Ast.While(cond, body))
    ensures var d := JoinTo(c7, c.count, c3.count + 1); d.cur !in d.term
  {
    hide Good, ExprDone, StmtDone, Stage, CodeOk, EnvOk, AvailNow, EnvAvail, StmtRun, Phase, Premise, TestReady, Tested, Fresh, ExprRuns, StmtRuns, Usable,
      LoopParts, Headed;
    var h := Headed(c);
    HeadStage(c, env);
    StageFacts(c, h, env);
    DoneFacts(h, c3, env, isVoid, cond, v);
    DoneUsable(h, c3, env, isVoid, cond, v);
    TestStages(h, c3, env, v, false);
    TestFacts(h, c3, env, v, false);
    WhileStage(c, c3, c7, env, isVoid, cond, v, body);
    var d := JoinTo(c7, c.count, c3.count + 1);
    StagePhase(c, d, env);
    StageFacts(c, d, env);
    LoopIntro(h, c3, c7, d, env, isVoid, cond, v, body);
    forall w, scopes, r, fuel: nat | Premise(w, d, env, scopes, r)
      ensures StmtRun(w, c, d, env, isVoid, scopes, r, Ast.While(cond, body), fuel)
    {
      WhileRun(w, c, c3, c7, d, env, isVoid, cond, v, body, scopes, r, fuel);
    }
    StmtIntro(c, d, env, isVoid, Ast.While(cond, body));
  }

  lemma LoopIntro(h: Code, c3: Code, c7: Code, d: Code, env: Env, isVoid: bool, cond: Ast.Expr, v: Val, body: Ast.Stmt)
    requires CodeOk(h) && CodeOk(c3) && CodeOk(c7) && CodeOk(d) && h.body[h.cur] == []
    requires ExprDone(h, c3, env, isVoid, cond, v) && TestReady(h, c3, env, v, false)
    requires StmtDone(Tested(c3, v, false), c7, env, isVoid, body)
    requires d == JoinTo(c7, h.cur, c3.count + 1) && d.cur == c3.count + 1 && d.body[d.cur] == [] && d.cur !in d.term
    ensures LoopParts(h, c3, c7, d, env, isVoid, cond, v, body)
  {
    hide CodeOk, ExprDone, StmtDone, TestReady, JoinTo, Tested;
  }

  lemma WhileStage(c: Code, c3: Code, c7: Code, env: Env, isVoid: bool, cond: Ast.Expr, v: Val, body: Ast.Stmt)
    requires Good(c, env) && c.cur !in c.term && CodeOk(c) && CodeOk(c3)
    requires Stage(c, Headed(c), env) && Stage(Headed(c), c3, env) && TestReady(Headed(c), c3, env, v, false)
    requires StmtDone(Tested(c3, v, false), c7, env, isVoid, body)
    ensures var d := JoinTo(c7, c.count, c3.count + 1);
            Stage(c, d, env) && CodeOk(c7) && d.cur == c3.count + 1 && d.cur !in d.term && d.body[d.cur] == []
  {
    hide Good, StmtDone, Stage, CodeOk, AvailNow, EnvAvail, Phase, TestReady, Tested, Fresh, StmtRuns, Headed;
    var h := Headed(c);
    var t := Tested(c3, v, false);
    var k := c3.count + 1;
    HeadStage(c, env);
    GoodFacts(c, h, env);
    GoodFacts(h, c3, env);
    TestFacts(h, c3, env, v, false);
    StmtFacts(t, c7, env, isVoid, body);
    StageTrans(c, h, t, env);
    FreshAcross(t, c7, env, k, AvailNow(c3));
    HeadAvail(h, c3, t, c7, env, c.count);
    JoinStage(c, t, c7, env, c.count, k, AvailNow(c3));
    FreshJoin(c7, c.count, k, k, AvailNow(c3));
    FreshBody(JoinTo(c7, c.count, k), k, AvailNow(c3));
  }

  /** What is available at the loop head stays the same. */
  lemma HeadAvail(h: Code, c3: Code, t: Code, c7: Code, env: Env, e: Block)
    requires Stage(h, t, env) && Phase(t, c7, env) && 0 <= e < h.count
    ensures e in h.avail && e in c7.avail && c7.avail[e] == h.avail[e]
  {
    hide Certified, EnvOk, EnvAvail, AvailNow;
  }
}
