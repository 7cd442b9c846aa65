/** Declarations, statement lists and compound statements. */
module ScopeCode {
  import opened Ir
  import opened Building
  import opened Translation
  import opened ExprCode
  import opened IndexCode
  import opened StmtCode
  import opened ControlCode
  import Ast

  // ----- declarations -----

  /** The binding of a new name, and the code that makes it. */
  function BindingOf(c: Code, d: Ast.Decl): Binding {
    if d.isArray then ArrayBase(Res(c.nextId)) else IntSlot(c.nextSlot)
  }

  function DeclCode(c: Code, d: Ast.Decl): Code {
    if d.isArray then Append(c, Op(c.nextId, Alloca(d.site), [])) else c.(nextSlot := c.nextSlot + 1)
  }

  /** The declarations have been built, from env to env'. */
  ghost predicate DeclsRuns(c: Code, c': Code, env: Env, env': Env, decls: seq<Ast.Decl>)
    requires CodeOk(c) && CodeOk(c')
  {
    forall w, scopes, r | Premise(w, c', env, scopes, r) :: DeclsRun(w, c, c', env', scopes, r, decls)
  }

  ghost predicate DeclsRun(w: World, c: Code, c': Code, env': Env, scopes: Ast.Scopes, r: Regs, decls: seq<Ast.Decl>)
    requires CodeOk(c) && CodeOk(c')
  {
    exists r' :: Comes(w, c, c', env', r, r', Ast.DeclareAll(w.sem, scopes, decls), r.events)
  }

  ghost predicate DeclsDone(c: Code, c': Code, env: Env, env': Env, decls: seq<Ast.Decl>) {
    Stage(c, c', env') && |env'| == |env| && DeclsRuns(c, c', env, env', decls)
  }

  lemma DeclsNone(c: Code, env: Env)
    requires Good(c, env) && c.cur !in c.term
    ensures DeclsDone(c, c, env, env, [])
  {
    hide Certified, EnvOk, EnvAvail, Comes, AvailNow;
    StageStart(c, env);
    forall w, scopes, r | Premise(w, c, env, scopes, r) ensures DeclsRun(w, c, c, env, scopes, r, []) {
      ComesRefl(w, c, env, r, scopes);
      DeclsIntro(w, c, c, env, scopes, r, r, []);
    }
  }

  lemma DeclareCases(env: Env, name: Name, b: Binding, i: nat, n: Name)
    requires i < |env| && n in Ast.Declare(env, name, b)[i]
    ensures var env' := Ast.Declare(env, name, b);
            (n in env[i] && env'[i][n] == env[i][n]) || (n !in env[i] && i == |env| - 1 && n == name && env'[i][n] == b)
  {
  }

  lemma DeclareDistinct(env: Env, name: Name, b: Binding, m: Slot)
    requires SlotsBelow(env, m) && SlotsDistinct(env) && (SlotOf(b).Some? ==> m <= SlotOf(b).value)
    ensures SlotsDistinct(Ast.Declare(env, name, b))
  {
    var env' := Ast.Declare(env, name, b);
    forall i, n, j, k | 0 <= i < |env'| && n in env'[i] && 0 <= j < |env'| && k in env'[j] && (i != j || n != k)
      && SlotOf(env'[i][n]).Some?
      ensures SlotOf(env'[i][n]) != SlotOf(env'[j][k])
    {
      DeclareCases(env, name, b, i, n);
      DeclareCases(env, name, b, j, k);
    }
  }

  lemma DeclsIntro(w: World, c: Code, c': Code, env': Env, scopes: Ast.Scopes, r: Regs, r': Regs, decls: seq<Ast.Decl>)
    requires CodeOk(c) && CodeOk(c') && Comes(w, c, c', env', r, r', Ast.DeclareAll(w.sem, scopes, decls), r.events)
    ensures DeclsRun(w, c, c', env', scopes, r, decls)
  {
  }

  /** A new name keeps the scopes in order. */
  lemma DeclareOk(env: Env, name: Name, b: Binding, n: Id, m: Slot, n': Id, m': Slot)
    requires EnvOk(env, n, m) && n <= n' && m <= m'
    requires SlotOf(b).Some? ==> m <= SlotOf(b).value < m'
    requires BaseOf(b).Some? && BaseOf(b).value.Res? ==> BaseOf(b).value.id < n'
    ensures EnvOk(Ast.Declare(env, name, b), n', m')
  {
    hide SlotsDistinct;
    DeclareDistinct(env, name, b, m);
  }

  lemma DeclareAvail(env: Env, name: Name, b: Binding, s: set<Id>, s': set<Id>)
    requires EnvAvail(env, s) && s <= s' && (BaseOf(b).Some? && BaseOf(b).value.Res? ==> BaseOf(b).value.id in s')
    ensures EnvAvail(Ast.Declare(env, name, b), s')
  {
  }

  lemma DeclareRelated(env: Env, scopes: Ast.Scopes, args: seq<int>, r: Regs, name: Name, b: Binding, cell: Ast.Cell)
    requires Related(env, scopes, args, r) && CellOk(b, cell, args, r)
    ensures Related(Ast.Declare(env, name, b), Ast.Declare(scopes, name, cell), args, r)
  {
    var env', scopes' := Ast.Declare(env, name, b), Ast.Declare(scopes, name, cell);
    forall i, n | 0 <= i < |env'| && n in env'[i] ensures n in scopes'[i] && CellOk(env'[i][n], scopes'[i][n], args, r) {
      if n in env[i] {
        assert CellOk(env[i][n], scopes[i][n], args, r);
      }
    }
  }

  lemma DeclStage(base: Code, c: Code, env: Env, d: Ast.Decl)
    requires Stage(base, c, env)
    ensures Stage(base, DeclCode(c, d), Ast.Declare(env, d.name, BindingOf(c, d)))
  {
    hide Certified, EnvOk, EnvAvail, AvailNow;
    var b := BindingOf(c, d);
    if d.isArray {
      var i := Op(c.nextId, Alloca(d.site), []);
      Emit(base, c, env, i);
      AppendAvail(c, i);
      DeclareOk(env, d.name, b, c.nextId, c.nextSlot, c.nextId + 1, c.nextSlot);
      DeclareAvail(env, d.name, b, AvailNow(c), AvailNow(Append(c, i)));
    } else {
      DeclareOk(env, d.name, b, c.nextId, c.nextSlot, c.nextId, c.nextSlot + 1);
      DeclareAvail(env, d.name, b, AvailNow(c), AvailNow(c));
      SlotStage(base, c);
    }
  }

  lemma SlotStage(base: Code, c: Code)
    requires CodeOk(base) && CodeOk(c) && Grew(base, c)
    ensures var c' := c.(nextSlot := c.nextSlot + 1);
            CodeOk(c') && Grew(base, c') && AvailNow(c') == AvailNow(c) && (Certified(c) ==> Certified(c'))
  {
    hide DefinedIn;
    var c' := c.(nextSlot := c.nextSlot + 1);
    forall b, i | b in c.body && 0 <= i <= |c.body[b]| ensures AvailAt(c', b, i) == AvailAt(c, b, i) {
    }
  }

  /** One more declaration. */
  lemma DeclNextRun(w: World, c: Code, c1: Code, env: Env, env1: Env, scopes: Ast.Scopes, r: Regs, decls: seq<Ast.Decl>, d: Ast.Decl)
    requires DeclsDone(c, c1, env, env1, decls) && CodeOk(c) && CodeOk(c1)
    requires CodeOk(DeclCode(c1, d)) && Premise(w, DeclCode(c1, d), env, scopes, r)
    ensures DeclsRun(w, c, DeclCode(c1, d), Ast.Declare(env1, d.name, BindingOf(c1, d)), scopes, r, decls + [d])
  {
    hide Stage, CodeOk, EnvOk, Related, FinalOf, Comes, KeepsEnv, Eval, Ast.Declare;
    StageFacts(c, c1, env1);
    assert (decls + [d])[..|decls|] == decls;
    var scopes1 := Ast.DeclareAll(w.sem, scopes, decls);
    DeclFinal(c1, d, w.f);
    assert DeclsRun(w, c, c1, env1, scopes, r, decls);
    var r1 :| Comes(w, c, c1, env1, r, r1, scopes1, r.events);
    ComesFacts(w, c, c1, env1, r, r1, scopes1, r.events);
    if d.isArray {
      EvalNone(w.args, r1.env);
      var r2 := PureStep(w, c, c1, env1, r, r1, scopes1, r.events, Alloca(d.site), []);
      ComesDeclare(w, c, DeclCode(c1, d), env1, r, r2, scopes1, r.events, d.name, BindingOf(c1, d), Ast.CellOf(w.sem, d));
      DeclsIntro(w, c, DeclCode(c1, d), Ast.Declare(env1, d.name, BindingOf(c1, d)), scopes, r, r2, decls + [d]);
    } else {
      ComesSlot(w, c, c1, env1, r, r1, scopes1, r.events);
      ComesDeclare(w, c, DeclCode(c1, d), env1, r, r1, scopes1, r.events, d.name, BindingOf(c1, d), Ast.CellOf(w.sem, d));
      DeclsIntro(w, c, DeclCode(c1, d), Ast.Declare(env1, d.name, BindingOf(c1, d)), scopes, r, r1, decls + [d]);
    }
  }

  lemma DeclFinal(c: Code, d: Ast.Decl, f: Func)
    requires CodeOk(c) && c.cur !in c.term && FinalOf(DeclCode(c, d), f)
    ensures FinalOf(c, f)
  {
    if d.isArray {
      FinalAppend(c, Op(c.nextId, Alloca(d.site), []), f);
    }
  }

  lemma ComesSlot(w: World, c: Code, c1: Code, env: Env, r: Regs, r1: Regs, scopes: Ast.Scopes, events: seq<Event>)
    requires CodeOk(c) && CodeOk(c1) && Comes(w, c, c1, env, r, r1, scopes, events)
    ensures CodeOk(c1.(nextSlot := c1.nextSlot + 1)) && Comes(w, c, c1.(nextSlot := c1.nextSlot + 1), env, r, r1, scopes, events)
  {
    hide Related, Reaches, KeepsEnv;
  }

  lemma ComesDeclare(w: World, c: Code, c1: Code, env: Env, r: Regs, r1: Regs, scopes: Ast.Scopes, events: seq<Event>,
                     name: Name, b: Binding, cell: Ast.Cell)
    requires CodeOk(c) && CodeOk(c1) && Comes(w, c, c1, env, r, r1, scopes, events) && CellOk(b, cell, w.args, r1)
    ensures Comes(w, c, c1, Ast.Declare(env, name, b), r, r1, Ast.Declare(scopes, name, cell), events)
  {
    hide Related, Reaches, KeepsEnv, CellOk, CodeOk;
    DeclareRelated(env, scopes, w.args, r1, name, b, cell);
  }

  lemma DeclsNext(c: Code, c1: Code, env: Env, env1: Env, decls: seq<Ast.Decl>, d: Ast.Decl)
    requires DeclsDone(c, c1, env, env1, decls)
    ensures DeclsDone(c, DeclCode(c1, d), env, Ast.Declare(env1, d.name, BindingOf(c1, d)), decls + [d])
  {
    hide Stage, CodeOk, EnvOk, Premise, DeclsRun;
    StageFacts(c, c1, env1);
    DeclStage(c, c1, env1, d);
    StageFacts(c, DeclCode(c1, d), Ast.Declare(env1, d.name, BindingOf(c1, d)));
    forall w, scopes, r | Premise(w, DeclCode(c1, d), env, scopes, r)
      ensures DeclsRun(w, c, DeclCode(c1, d), Ast.Declare(env1, d.name, BindingOf(c1, d)), scopes, r, decls + [d])
    {
      DeclNextRun(w, c, c1, env, env1, scopes, r, decls, d);
    }
  }

  // ----- statement lists -----

  ghost predicate ListRun(w: World, c: Code, c': Code, env: Env, isVoid: bool, scopes: Ast.Scopes, r: Regs, stmts: seq<Ast.Stmt>, fuel: nat)
    requires CodeOk(c) && CodeOk(c')
  {
    EffectRun(w, c, c', env, r, Ast.ExecAll(w.sem, isVoid, scopes, r.events, stmts, fuel), fuel)
  }

  ghost predicate ListRuns(c: Code, c': Code, env: Env, isVoid: bool, stmts: seq<Ast.Stmt>)
    requires CodeOk(c) && CodeOk(c')
  {
    forall w, scopes, r, fuel: nat | Premise(w, c', env, scopes, r) :: ListRun(w, c, c', env, isVoid, scopes, r, stmts, fuel)
  }

  ghost predicate ListDone(c: Code, c': Code, env: Env, isVoid: bool, stmts: seq<Ast.Stmt>) {
    Phase(c, c', env) && ListRuns(c, c', env, isVoid, stmts)
  }

  lemma ListNone(c: Code, env: Env, isVoid: bool)
    requires Good(c, env) && c.cur !in c.term
    ensures ListDone(c, c, env, isVoid, [])
  {
    hide Certified, EnvOk, EnvAvail, Comes, AvailNow;
    StageStart(c, env);
    StagePhase(c, c, env);
    forall w, scopes, r, fuel: nat | Premise(w, c, env, scopes, r) ensures ListRun(w, c, c, env, isVoid, scopes, r, [], fuel) {
      ComesRefl(w, c, env, r, scopes);
    }
  }

  lemma ListFacts(c: Code, c': Code, env: Env, isVoid: bool, stmts: seq<Ast.Stmt>)
    requires ListDone(c, c', env, isVoid, stmts)
    ensures Phase(c, c', env) && CodeOk(c) && CodeOk(c') && c.nextId <= c'.nextId && ListRuns(c, c', env, isVoid, stmts)
  {
    hide Phase, ListRuns;
    PhaseFacts(c, c', env);
  }

  lemma ListNextRun(w: World, c: Code, c1: Code, c2: Code, env: Env, isVoid: bool, scopes: Ast.Scopes, r: Regs, stmts: seq<Ast.Stmt>, s: Ast.Stmt, fuel: nat)
    requires ListDone(c, c1, env, isVoid, stmts) && StmtDone(c1, c2, env, isVoid, s) && CodeOk(c) && CodeOk(c1) && CodeOk(c2)
    requires Premise(w, c2, env, scopes, r)
    ensures ListRun(w, c, c2, env, isVoid, scopes, r, stmts + [s], fuel)
  {
    hide ListDone, StmtDone, Phase, CodeOk, EnvOk, Related, FinalOf, Comes, KeepsEnv, EffectRun, StmtRuns, Ast.Exec, ListRun;
    ListFacts(c, c1, env, isVoid, stmts);
    StmtFacts(c1, c2, env, isVoid, s);
    PhaseFinal(c1, c2, env, w.f);
    assert (stmts + [s])[..|stmts|] == stmts;
    assert ListRun(w, c, c1, env, isVoid, scopes, r, stmts, fuel);
    var eff := Ast.ExecAll(w.sem, isVoid, scopes, r.events, stmts, fuel);
    ListOut(w, c, c1, env, isVoid, scopes, r, stmts, fuel);
    if eff.Normal? {
      var r1 := NormalFacts(w, c, c1, env, r, eff, fuel);
      ComesFacts(w, c, c1, env, r, r1, eff.scopes, eff.events);
      UseStmt(w, c1, c2, env, isVoid, eff.scopes, r1, s, fuel);
      EffectAfter(w, c, c1, c2, env, r, r1, eff.scopes, eff.events, Ast.Exec(w.sem, isVoid, eff.scopes, eff.events, s, fuel), fuel);
    } else {
      OtherEnd(w, c, c1, c2, env, r, eff, fuel);
    }
    ListIn(w, c, c2, env, isVoid, scopes, r, stmts + [s], fuel);
  }

  lemma ListOut(w: World, c: Code, c': Code, env: Env, isVoid: bool, scopes: Ast.Scopes, r: Regs, stmts: seq<Ast.Stmt>, fuel: nat)
    requires CodeOk(c) && CodeOk(c') && ListRun(w, c, c', env, isVoid, scopes, r, stmts, fuel)
    ensures EffectRun(w, c, c', env, r, Ast.ExecAll(w.sem, isVoid, scopes, r.events, stmts, fuel), fuel)
  {
  }

  lemma ListIn(w: World, c: Code, c': Code, env: Env, isVoid: bool, scopes: Ast.Scopes, r: Regs, stmts: seq<Ast.Stmt>, fuel: nat)
    requires CodeOk(c) && CodeOk(c') && EffectRun(w, c, c', env, r, Ast.ExecAll(w.sem, isVoid, scopes, r.events, stmts, fuel), fuel)
    ensures ListRun(w, c, c', env, isVoid, scopes, r, stmts, fuel)
  {
  }

  /** An effect that does not come to the end does not depend on where the end is. */
  lemma OtherEnd(w: World, c: Code, c1: Code, c2: Code, env: Env, r: Regs, eff: Ast.Effect, fuel: nat)
    requires CodeOk(c) && CodeOk(c1) && CodeOk(c2) && !eff.Normal? && EffectRun(w, c, c1, env, r, eff, fuel)
    ensures EffectRun(w, c, c2, env, r, eff, fuel)
  {
  }

  lemma ListNext(c: Code, c1: Code, c2: Code, env: Env, isVoid: bool, stmts: seq<Ast.Stmt>, s: Ast.Stmt)
    requires ListDone(c, c1, env, isVoid, stmts) && c1.cur !in c1.term && StmtDone(c1, c2, env, isVoid, s)
    ensures ListDone(c, c2, env, isVoid, stmts + [s])
  {
    hide StmtDone, Phase, CodeOk, EnvOk, Premise, ListRun, StmtRuns;
    ListFacts(c, c1, env, isVoid, stmts);
    StmtFacts(c1, c2, env, isVoid, s);
    StagePhase(c, c1, env);
    PhaseTrans(c, c1, c2, env);
    forall w, scopes, r, fuel: nat | Premise(w, c2, env, scopes, r)
      ensures ListRun(w, c, c2, env, isVoid, scopes, r, stmts + [s], fuel)
    {
      ListNextRun(w, c, c1, c2, env, isVoid, scopes, r, stmts, s, fuel);
    }
  }

  /** Statements behind one that does not end normally are not executed. */
  lemma {:induction false} ExecStops(sem: Sem, isVoid: bool, scopes: Ast.Scopes, events: seq<Event>, stmts: seq<Ast.Stmt>, k: nat, fuel: nat)
    requires k <= |stmts| && !Ast.ExecAll(sem, isVoid, scopes, events, stmts[..k], fuel).Normal?
    ensures Ast.ExecAll(sem, isVoid, scopes, events, stmts, fuel) == Ast.ExecAll(sem, isVoid, scopes, events, stmts[..k], fuel)
    decreases |stmts|
  {
    hide Ast.Exec;
    if k == |stmts| {
      assert stmts[..k] == stmts;
    } else {
      var init := stmts[..|stmts| - 1];
      assert init[..k] == stmts[..k];
      ExecStops(sem, isVoid, scopes, events, init, k, fuel);
    }
  }

  /** The builder stops where the block has been ended. */
  lemma ListStops(c: Code, c': Code, env: Env, isVoid: bool, stmts: seq<Ast.Stmt>, k: nat)
    requires k <= |stmts| && ListDone(c, c', env, isVoid, stmts[..k]) && c'.cur in c'.term
    ensures ListDone(c, c', env, isVoid, stmts)
  {
    hide Phase, CodeOk, EnvOk, Premise, Ast.ExecAll, ListRun;
    ListFacts(c, c', env, isVoid, stmts[..k]);
    forall w, scopes, r, fuel: nat | Premise(w, c', env, scopes, r) ensures ListRun(w, c, c', env, isVoid, scopes, r, stmts, fuel) {
      assert ListRun(w, c, c', env, isVoid, scopes, r, stmts[..k], fuel);
      ListOut(w, c, c', env, isVoid, scopes, r, stmts[..k], fuel);
      NotNormal(w, c, c', env, r, Ast.ExecAll(w.sem, isVoid, scopes, r.events, stmts[..k], fuel), fuel);
      ExecStops(w.sem, isVoid, scopes, r.events, stmts, k, fuel);
      ListIn(w, c, c', env, isVoid, scopes, r, stmts, fuel);
    }
  }

  lemma NotNormal(w: World, c: Code, c': Code, env: Env, r: Regs, eff: Ast.Effect, fuel: nat)
    requires CodeOk(c) && CodeOk(c') && EffectRun(w, c, c', env, r, eff, fuel) && c'.cur in c'.term
    ensures !eff.Normal?
  {
  }

  // ----- compound statements -----

  lemma PushGood(c: Code, env: Env)
    requires Good(c, env)
    ensures Good(c, env + [map[]])
  {
    hide Certified, AvailNow;
    var env' := env + [map[]];
    assert forall i, n | 0 <= i < |env'| && n in env'[i] :: i < |env| && env'[i] == env[i];
  }

  lemma PushRelated(env: Env, scopes: Ast.Scopes, args: seq<int>, r: Regs)
    requires Related(env, scopes, args, r)
    ensures Related(env + [map[]], scopes + [map[]], args, r)
  {
  }

  lemma PopRelated(env: Env, env2: Env, scopes: Ast.Scopes, args: seq<int>, r: Regs)
    requires Related(env2, scopes, args, r) && |env2| == |env| + 1 && env2[..|env|] == env
    ensures Related(env, Ast.Pop(scopes), args, r)
  {
    forall i | 0 <= i < |env| ensures env[i] == env2[i] {
      assert env2[..|env|][i] == env2[i];
    }
  }

  lemma PopPhase(c: Code, c2: Code, env: Env, env2: Env)
    requires Phase(c, c2, env2) && |env2| == |env| + 1 && env2[..|env|] == env
    ensures Phase(c, c2, env)
  {
    hide Certified, AvailNow, Grew;
    forall i | 0 <= i < |env| ensures env[i] == env2[i] {
      assert env2[..|env|][i] == env2[i];
    }
    PopDistinct(env, env2);
  }

  lemma PopDistinct(env: Env, env2: Env)
    requires SlotsDistinct(env2) && |env2| == |env| + 1 && forall i | 0 <= i < |env| :: env[i] == env2[i]
    ensures SlotsDistinct(env)
  {
  }

  /** Leaving the inner scope. */
  function Popped(eff: Ast.Effect): Ast.Effect {
    if eff.Normal? then Ast.Normal(Ast.Pop(eff.scopes), eff.events) else eff
  }

  lemma EffectPop(w: World, c: Code, c': Code, env: Env, env2: Env, r: Regs, eff: Ast.Effect, fuel: nat)
    requires CodeOk(c) && CodeOk(c') && EffectRun(w, c, c', env2, r, eff, fuel) && |env2| == |env| + 1 && env2[..|env|] == env
    ensures EffectRun(w, c, c', env, r, Popped(eff), fuel)
  {
    hide CodeOk, Related, Reaches, KeepsEnv, RunsOn, Leaves;
    if eff.Normal? {
      var r' := NormalFacts(w, c, c', env2, r, eff, fuel);
      PopRelated(env, env2, eff.scopes, w.args, r');
      NormalRun(w, c, c', env, r, r', Ast.Pop(eff.scopes), eff.events, fuel);
    }
  }

  lemma CompoundRun(w: World, c: Code, c1: Code, c2: Code, env: Env, env2: Env, isVoid: bool, scopes: Ast.Scopes, r: Regs,
                    decls: seq<Ast.Decl>, stmts: seq<Ast.Stmt>, fuel: nat)
    requires DeclsDone(c, c1, env + [map[]], env2, decls) && ListDone(c1, c2, env2, isVoid, stmts)
    requires CodeOk(c) && CodeOk(c1) && CodeOk(c2) && c.nextId <= c1.nextId && env2[..|env|] == env && Premise(w, c2, env, scopes, r)
    ensures StmtRun(w, c, c2, env, isVoid, scopes, r, Ast.Compound(decls, stmts), fuel)
  {
    hide Stage, Phase, CodeOk, EnvOk, Related, FinalOf, Comes, KeepsEnv, EffectRun, Ast.ExecAll, Ast.DeclareAll, StmtRun;
    var scopes1 := scopes + [map[]];
    PushRelated(env, scopes, w.args, r);
    PhaseFinal(c1, c2, env2, w.f);
    assert DeclsRun(w, c, c1, env2, scopes1, r, decls);
    var inner := Ast.DeclareAll(w.sem, scopes1, decls);
    var r1 :| Comes(w, c, c1, env2, r, r1, inner, r.events);
    ComesFacts(w, c, c1, env2, r, r1, inner, r.events);
    assert ListRun(w, c1, c2, env2, isVoid, inner, r1, stmts, fuel);
    ListOut(w, c1, c2, env2, isVoid, inner, r1, stmts, fuel);
    var eff := Ast.ExecAll(w.sem, isVoid, inner, r.events, stmts, fuel);
    EffectAfter(w, c, c1, c2, env2, r, r1, inner, r.events, eff, fuel);
    EffectPop(w, c, c2, env, env2, r, eff, fuel);
    RunIntro(w, c, c2, env, isVoid, scopes, r, Ast.Compound(decls, stmts), fuel);
  }

  lemma CompoundDone(c: Code, c1: Code, c2: Code, env: Env, env2: Env, isVoid: bool, decls: seq<Ast.Decl>, stmts: seq<Ast.Stmt>)
    requires DeclsDone(c, c1, env + [map[]], env2, decls) && ListDone(c1, c2, env2, isVoid, stmts) && env2[..|env|] == env
    ensures StmtDone(c, c2, env, isVoid, Ast.Compound(decls, stmts))
  {
    hide Stage, Phase, CodeOk, EnvOk, Premise, DeclsRuns, ListRuns, StmtRun, StmtDone;
    StageFacts(c, c1, env2);
    PhaseFacts(c1, c2, env2);
    PhaseTrans(c, c1, c2, env2);
    PopPhase(c, c2, env, env2);
    forall w, scopes, r, fuel: nat | Premise(w, c2, env, scopes, r)
      ensures StmtRun(w, c, c2, env, isVoid, scopes, r, Ast.Compound(decls, stmts), fuel)
    {
      CompoundRun(w, c, c1, c2, env, env2, isVoid, scopes, r, decls, stmts, fuel);
    }
    StmtIntro(c, c2, env, isVoid, Ast.Compound(decls, stmts));
  }

}
