/** One lemma per kind of expression: the code that the builder emits for it does
    what evaluating it does. */
module ExprCode {
  import opened Common
  import opened Ir
  import opened Building
  import opened Translation
  import Ast

  /** Code that fits the scopes: certified, with all slots and addresses older than what comes next. */
  ghost predicate Good(c: Code, env: Env) {
    CodeOk(c) && Certified(c) && 0 <= c.nextId && EnvOk(env, c.nextId, c.nextSlot) && EnvAvail(env, AvailNow(c))
  }

  /** From base to c only the current block and new ones have grown, and the current block is open. */
  ghost predicate Stage(base: Code, c: Code, env: Env) {
    CodeOk(base) && Good(c, env) && Grew(base, c) && c.cur !in c.term && AvailNow(base) <= AvailNow(c)
  }

  ghost predicate Usable(c: Code, v: Val)
    requires CodeOk(c)
  {
    UsesAvail(AvailNow(c), [v]) && Below(v, c.nextId)
  }

  /** What a visit of an expression gives. */
  ghost predicate ExprDone(c: Code, c': Code, env: Env, isVoid: bool, e: Ast.Expr, v: Val) {
    Stage(c, c', env) && Usable(c', v) && ExprRuns(c, c', env, isVoid, e, v)
  }

  lemma StageFacts(base: Code, c: Code, env: Env)
    requires Stage(base, c, env)
    ensures CodeOk(base) && CodeOk(c) && base.nextId <= c.nextId && EnvOk(env, c.nextId, c.nextSlot) && c.cur !in c.term
  {
    hide Certified, EnvOk, EnvAvail, AvailNow;
  }

  lemma DoneFacts(c: Code, c': Code, env: Env, isVoid: bool, e: Ast.Expr, v: Val)
    requires ExprDone(c, c', env, isVoid, e, v)
    ensures Stage(c, c', env) && CodeOk(c) && CodeOk(c') && c.nextId <= c'.nextId && EnvOk(env, c'.nextId, c'.nextSlot)
    ensures c'.cur !in c'.term && Below(v, c'.nextId) && ExprRuns(c, c', env, isVoid, e, v)
  {
    hide ExprRuns, Stage, UsesAvail, AvailNow;
    StageFacts(c, c', env);
  }

  lemma StageStart(c: Code, env: Env)
    requires Good(c, env) && c.cur !in c.term
    ensures Stage(c, c, env)
  {
    GrewRefl(c);
  }

  lemma EnvLater(env: Env, n: Id, m: Slot, n': Id, m': Slot)
    requires EnvOk(env, n, m) && n <= n' && m <= m'
    ensures EnvOk(env, n', m')
  {
  }

  lemma StageTrans(a: Code, b: Code, c: Code, env: Env)
    requires Stage(a, b, env) && Stage(b, c, env)
    ensures Stage(a, c, env)
  {
    hide Certified, AvailNow, EnvOk, EnvAvail;
    GrewTrans(a, b, c);
  }

  /** One more instruction. */
  lemma Emit(base: Code, c: Code, env: Env, i: Instr)
    requires Stage(base, c, env)
    requires (Defines(i).Some? ==> Defines(i).value == c.nextId) && UsesAvail(AvailNow(c), Uses(i))
    ensures Stage(base, Append(c, i), env)
    ensures Defines(i).Some? ==> Usable(Append(c, i), Res(c.nextId))
    ensures forall v | Usable(c, v) :: Usable(Append(c, i), v)
  {
    hide Certified, AvailNow, EnvOk;
    AppendOk(c, i);
    AppendCertified(c, i);
    AppendAvail(c, i);
    GrewTrans(base, c, Append(c, i));
    EnvLater(env, c.nextId, c.nextSlot, Append(c, i).nextId, Append(c, i).nextSlot);
  }

  lemma StageFinal(base: Code, c: Code, env: Env, f: Func)
    requires Stage(base, c, env) && FinalOf(c, f)
    ensures FinalOf(base, f)
  {
    hide Certified, AvailNow, EnvOk, EnvAvail;
    FinalBack(base, c, f);
  }

  /** When code grows, values stay usable. */
  lemma StageUsable(base: Code, c: Code, env: Env, v: Val)
    requires Stage(base, c, env) && Usable(base, v)
    ensures Usable(c, v)
  {
    hide Certified, EnvOk, EnvAvail;
  }

  // ----- concluding a run -----

  lemma Gives(w: World, c: Code, c': Code, env: Env, isVoid: bool, r: Regs, o: Ast.Outcome, v: Val, r': Regs)
    requires CodeOk(c) && CodeOk(c') && o.Value?
    requires Comes(w, c, c', env, r, r', o.scopes, o.events) && Eval(w.args, r'.env, v) == o.v
    ensures OutcomeRun(w, c, c', env, isVoid, r, o, v)
  {
  }

  lemma Quits(w: World, c: Code, c': Code, env: Env, isVoid: bool, r: Regs, o: Ast.Outcome, v: Val)
    requires CodeOk(c) && CodeOk(c') && !o.Value?
    requires o.Exited? ==> Leaves(w, c, r, Ast.DefaultResult(isVoid), o.events)
    ensures OutcomeRun(w, c, c', env, isVoid, r, o, v)
  {
  }

  lemma ExprIntro(w: World, c: Code, c': Code, env: Env, isVoid: bool, scopes: Ast.Scopes, r: Regs, e: Ast.Expr, v: Val)
    requires CodeOk(c) && CodeOk(c') && OutcomeRun(w, c, c', env, isVoid, r, Ast.Eval(w.sem, scopes, r.events, e), v)
    ensures ExprRun(w, c, c', env, isVoid, scopes, r, e, v)
  {
  }

  // ----- leaves -----

  lemma NumDone(c: Code, env: Env, isVoid: bool, k: int)
    requires Good(c, env) && c.cur !in c.term
    ensures ExprDone(c, c, env, isVoid, Ast.Num(k), Const(k))
  {
    hide Certified, EnvOk, EnvAvail, Comes;
    StageStart(c, env);
    forall w, scopes, r | Premise(w, c, env, scopes, r) ensures ExprRun(w, c, c, env, isVoid, scopes, r, Ast.Num(k), Const(k)) {
      ComesRefl(w, c, env, r, scopes);
    }
  }

  /** What reading a name emits, and what it is for. */
  function ReadInstr(b: Binding, id: Id): Instr
    requires !b.FnName?
  {
    match b
    case IntSlot(x) => Load(id, x)
    case PtrSlot(x) => Load(id, x)
    case ArrayBase(v) => Op(id, Gep, [v, Const(0), Const(0)])
    case GlobalVar(v) => Op(id, LoadPtr, [v])
  }

  lemma LookupAvail(env: Env, s: set<Id>, x: Name)
    requires EnvAvail(env, s) && Ast.Lookup(env, x).Some?
    ensures BaseOf(Ast.Lookup(env, x).value).Some? ==> UsesAvail(s, [BaseOf(Ast.Lookup(env, x).value).value])
  {
  }

  lemma EvalThree(args: seq<int>, env: map<Id, int>, a: Val, b: Val, c: Val)
    ensures EvalAll(args, env, [a]) == [Eval(args, env, a)]
    ensures EvalAll(args, env, [a, b]) == [Eval(args, env, a), Eval(args, env, b)]
    ensures EvalAll(args, env, [a, b, c]) == [Eval(args, env, a), Eval(args, env, b), Eval(args, env, c)]
  {
  }

  lemma ReadRun(w: World, c: Code, env: Env, isVoid: bool, scopes: Ast.Scopes, r: Regs, x: Name)
    requires Good(c, env) && c.cur !in c.term && Ast.Lookup(env, x).Some? && !Ast.Lookup(env, x).value.FnName?
    requires var i := ReadInstr(Ast.Lookup(env, x).value, c.nextId); CodeOk(Append(c, i)) && Premise(w, Append(c, i), env, scopes, r)
    ensures ExprRun(w, c, Append(c, ReadInstr(Ast.Lookup(env, x).value, c.nextId)), env, isVoid, scopes, r, Ast.VarRef(x), Res(c.nextId))
  {
    hide Certified, EnvOk, EnvAvail, Comes, Eval, Related;
    var b := Ast.Lookup(env, x).value;
    var c' := Append(c, ReadInstr(b, c.nextId));
    ComesRefl(w, c, env, r, scopes);
    FindSame(env, scopes, w.args, r, x);
    match b
    case IntSlot(s) =>
      if Ast.Lookup(scopes, x).value.val.Some? {
        var r' := LoadStep(w, c, c, env, r, r, scopes, r.events, s);
      }
    case PtrSlot(s) =>
      var r' := LoadStep(w, c, c, env, r, r, scopes, r.events, s);
    case ArrayBase(v) =>
      EvalThree(w.args, r.env, v, Const(0), Const(0));
      EvalConst(w.args, r.env, 0);
      var r' := PureStep(w, c, c, env, r, r, scopes, r.events, Gep, [v, Const(0), Const(0)]);
    case GlobalVar(v) =>
      EvalThree(w.args, r.env, v, v, v);
      var r' := OutsideStep(w, c, c, env, r, r, scopes, r.events, LoadPtr, [v]);
  }

  lemma EvalConst(args: seq<int>, env: map<Id, int>, k: int)
    ensures Eval(args, env, Const(k)) == k
  {
  }

  lemma ReadDone(c: Code, env: Env, isVoid: bool, x: Name)
    requires Good(c, env) && c.cur !in c.term && Ast.Lookup(env, x).Some? && !Ast.Lookup(env, x).value.FnName?
    ensures ExprDone(c, Append(c, ReadInstr(Ast.Lookup(env, x).value, c.nextId)), env, isVoid, Ast.VarRef(x), Res(c.nextId))
  {
    hide Certified, EnvOk, Comes, Premise, ExprRun;
    var i := ReadInstr(Ast.Lookup(env, x).value, c.nextId);
    StageStart(c, env);
    LookupAvail(env, AvailNow(c), x);
    Emit(c, c, env, i);
    forall w, scopes, r | Premise(w, Append(c, i), env, scopes, r)
      ensures ExprRun(w, c, Append(c, i), env, isVoid, scopes, r, Ast.VarRef(x), Res(c.nextId))
    {
      ReadRun(w, c, env, isVoid, scopes, r, x);
    }
  }

  // ----- two operands -----

  /** What a second evaluation brings after a first that gave x in vl. */
  ghost predicate ThenRun(w: World, c: Code, c2: Code, env: Env, isVoid: bool, r: Regs, x: int, vl: Val, o: Ast.Outcome, vr: Val)
    requires CodeOk(c) && CodeOk(c2)
  {
    match o
    case Undefined => true
    case Exited(events) => Leaves(w, c, r, Ast.DefaultResult(isVoid), events)
    case Value(y, scopes2, events2) =>
      exists r2 :: Comes(w, c, c2, env, r, r2, scopes2, events2) && Eval(w.args, r2.env, vl) == x && Eval(w.args, r2.env, vr) == y
  }

  lemma ComesFacts(w: World, c: Code, c': Code, env: Env, r: Regs, r': Regs, scopes: Ast.Scopes, events: seq<Event>)
    requires CodeOk(c) && CodeOk(c') && Comes(w, c, c', env, r, r', scopes, events)
    ensures Related(env, scopes, w.args, r') && r'.events == events && r'.clean == r.clean && KeepsEnv(r, r', c.nextId)
  {
    hide Related, Reaches, KeepsEnv, CodeOk;
  }

  lemma ThenRuns(w: World, c: Code, c1: Code, c2: Code, env: Env, isVoid: bool, r: Regs, r1: Regs, scopes1: Ast.Scopes, events1: seq<Event>,
                 x: int, vl: Val, o: Ast.Outcome, vr: Val)
    requires CodeOk(c) && CodeOk(c1) && CodeOk(c2) && c.nextId <= c1.nextId && Below(vl, c1.nextId)
    requires Comes(w, c, c1, env, r, r1, scopes1, events1) && Eval(w.args, r1.env, vl) == x
    requires OutcomeRun(w, c1, c2, env, isVoid, r1, o, vr)
    ensures ThenRun(w, c, c2, env, isVoid, r, x, vl, o, vr)
  {
    hide CodeOk, Eval, Comes, KeepsEnv, Leaves;
    if o.Value? {
      var r2 :| Comes(w, c1, c2, env, r1, r2, o.scopes, o.events) && Eval(w.args, r2.env, vr) == o.v;
      ComesFacts(w, c1, c2, env, r1, r2, o.scopes, o.events);
      ComesTrans(w, c, c1, c2, env, r, r1, r2, scopes1, events1, o.scopes, o.events);
      KeepsValue(w.args, r1, r2, c1.nextId, vl);
    } else if o.Exited? {
      ComesLeaves(w, c, c1, env, r, r1, scopes1, events1, Ast.DefaultResult(isVoid), o.events);
    }
  }

  /** Both operands have been evaluated, one after the other. */
  ghost predicate BothRun(w: World, c: Code, c2: Code, env: Env, isVoid: bool, scopes: Ast.Scopes, r: Regs,
                          left: Ast.Expr, vl: Val, right: Ast.Expr, vr: Val)
    requires CodeOk(c) && CodeOk(c2)
  {
    var a := Ast.Eval(w.sem, scopes, r.events, left);
    && (a.Exited? ==> Leaves(w, c, r, Ast.DefaultResult(isVoid), a.events))
    && (a.Value? ==> ThenRun(w, c, c2, env, isVoid, r, a.v, vl, Ast.Eval(w.sem, a.scopes, a.events, right), vr))
  }

  lemma BothIntro(w: World, c: Code, c2: Code, env: Env, isVoid: bool, scopes: Ast.Scopes, r: Regs,
                  left: Ast.Expr, vl: Val, right: Ast.Expr, vr: Val)
    requires CodeOk(c) && CodeOk(c2)
    requires var a := Ast.Eval(w.sem, scopes, r.events, left);
             && (a.Exited? ==> Leaves(w, c, r, Ast.DefaultResult(isVoid), a.events))
             && (a.Value? ==> ThenRun(w, c, c2, env, isVoid, r, a.v, vl, Ast.Eval(w.sem, a.scopes, a.events, right), vr))
    ensures BothRun(w, c, c2, env, isVoid, scopes, r, left, vl, right, vr)
  {
  }

  lemma BothRuns(w: World, c: Code, c1: Code, c2: Code, env: Env, isVoid: bool, scopes: Ast.Scopes, r: Regs,
                 left: Ast.Expr, vl: Val, right: Ast.Expr, vr: Val)
    requires ExprDone(c, c1, env, isVoid, left, vl) && ExprDone(c1, c2, env, isVoid, right, vr)
    requires Premise(w, c2, env, scopes, r)
    ensures BothRun(w, c, c2, env, isVoid, scopes, r, left, vl, right, vr)
  {
    hide ExprDone, Stage, CodeOk, EnvOk, Eval, Related, FinalOf, ExprRuns, Leaves, Comes, KeepsEnv, Ast.Eval, ThenRun, BothRun;
    DoneFacts(c, c1, env, isVoid, left, vl);
    DoneFacts(c1, c2, env, isVoid, right, vr);
    StageFinal(c1, c2, env, w.f);
    UseExpr(w, c, c1, env, isVoid, scopes, r, left, vl);
    var a := Ast.Eval(w.sem, scopes, r.events, left);
    if a.Value? {
      var r1 :| Comes(w, c, c1, env, r, r1, a.scopes, a.events) && Eval(w.args, r1.env, vl) == a.v;
      ComesFacts(w, c, c1, env, r, r1, a.scopes, a.events);
      UseExpr(w, c1, c2, env, isVoid, a.scopes, r1, right, vr);
      ThenRuns(w, c, c1, c2, env, isVoid, r, r1, a.scopes, a.events, a.v, vl, Ast.Eval(w.sem, a.scopes, a.events, right), vr);
    }
    BothIntro(w, c, c2, env, isVoid, scopes, r, left, vl, right, vr);
  }

  lemma ArithDone(c: Code, c1: Code, c2: Code, env: Env, isVoid: bool, op: Ast.ArithOp, left: Ast.Expr, vl: Val, right: Ast.Expr, vr: Val)
    requires ExprDone(c, c1, env, isVoid, left, vl) && ExprDone(c1, c2, env, isVoid, right, vr)
    ensures ExprDone(c, Append(c2, Op(c2.nextId, Ast.OpcodeOf(op), [vl, vr])), env, isVoid, Ast.Arith(op, left, right), Res(c2.nextId))
  {
    hide Certified, EnvOk, EnvAvail, Comes, Premise, ExprRun, Leaves, ExprRuns;
    var i := Op(c2.nextId, Ast.OpcodeOf(op), [vl, vr]);
    StageTrans(c, c1, c2, env);
    StageUsable(c1, c2, env, vl);
    Emit(c, c2, env, i);
    forall w, scopes, r | Premise(w, Append(c2, i), env, scopes, r)
      ensures ExprRun(w, c, Append(c2, i), env, isVoid, scopes, r, Ast.Arith(op, left, right), Res(c2.nextId))
    {
      ArithRun(w, c, c1, c2, env, isVoid, scopes, r, op, left, vl, right, vr);
    }
    RunsIntro(c, Append(c2, i), env, isVoid, Ast.Arith(op, left, right), Res(c2.nextId));
  }

  lemma RunsIntro(c: Code, c': Code, env: Env, isVoid: bool, e: Ast.Expr, v: Val)
    requires CodeOk(c) && CodeOk(c')
    requires forall w, scopes, r | Premise(w, c', env, scopes, r) :: ExprRun(w, c, c', env, isVoid, scopes, r, e, v)
    ensures ExprRuns(c, c', env, isVoid, e, v)
  {
  }

  lemma PremiseBefore(w: World, base: Code, c: Code, env: Env, i: Instr, scopes: Ast.Scopes, r: Regs)
    requires Stage(base, c, env) && CodeOk(Append(c, i)) && Premise(w, Append(c, i), env, scopes, r)
    ensures Premise(w, c, env, scopes, r) && FinalOf(Append(c, i), w.f)
  {
    hide Certified, EnvOk, EnvAvail, Related;
    StepHere(w, c, i, r);
  }

  lemma ArithRun(w: World, c: Code, c1: Code, c2: Code, env: Env, isVoid: bool, scopes: Ast.Scopes, r: Regs,
                 op: Ast.ArithOp, left: Ast.Expr, vl: Val, right: Ast.Expr, vr: Val)
    requires ExprDone(c, c1, env, isVoid, left, vl) && ExprDone(c1, c2, env, isVoid, right, vr)
    requires var i := Op(c2.nextId, Ast.OpcodeOf(op), [vl, vr]); CodeOk(Append(c2, i)) && Premise(w, Append(c2, i), env, scopes, r)
    ensures ExprRun(w, c, Append(c2, Op(c2.nextId, Ast.OpcodeOf(op), [vl, vr])), env, isVoid, scopes, r,
                    Ast.Arith(op, left, right), Res(c2.nextId))
  {
    hide ExprDone, Stage, CodeOk, EnvOk, Comes, Premise, Leaves, ExprRuns, Eval, FinalOf, OutcomeRun, ExprRun;
    var i := Op(c2.nextId, Ast.OpcodeOf(op), [vl, vr]);
    DoneFacts(c, c1, env, isVoid, left, vl);
    DoneFacts(c1, c2, env, isVoid, right, vr);
    PremiseBefore(w, c1, c2, env, i, scopes, r);
    BothRuns(w, c, c1, c2, env, isVoid, scopes, r, left, vl, right, vr);
    var o := Ast.Eval(w.sem, scopes, r.events, Ast.Arith(op, left, right));
    if o.Value? {
      var a := Ast.Eval(w.sem, scopes, r.events, left);
      var b := Ast.Eval(w.sem, a.scopes, a.events, right);
      var r2 :| Comes(w, c, c2, env, r, r2, b.scopes, b.events) && Eval(w.args, r2.env, vl) == a.v && Eval(w.args, r2.env, vr) == b.v;
      EvalThree(w.args, r2.env, vl, vr, vr);
      var r3 := PureStep(w, c, c2, env, r, r2, b.scopes, b.events, i.op, [vl, vr]);
      Gives(w, c, Append(c2, i), env, isVoid, r, o, Res(c2.nextId), r3);
    } else {
      Quits(w, c, Append(c2, i), env, isVoid, r, o, Res(c2.nextId));
    }
    ExprIntro(w, c, Append(c2, i), env, isVoid, scopes, r, Ast.Arith(op, left, right), Res(c2.nextId));
  }

  lemma RelationDone(c: Code, c1: Code, c2: Code, env: Env, isVoid: bool, cmp: Comparison, left: Ast.Expr, vl: Val, right: Ast.Expr, vr: Val)
    requires ExprDone(c, c1, env, isVoid, left, vl) && ExprDone(c1, c2, env, isVoid, right, vr)
    ensures var c3 := Append(c2, Op(c2.nextId, Icmp(cmp), [vl, vr]));
            ExprDone(c, Append(c3, Op(c3.nextId, Zext, [Res(c2.nextId)])), env, isVoid, Ast.Relation(cmp, left, right), Res(c3.nextId))
  {
    hide Certified, EnvOk, EnvAvail, Comes, Premise, ExprRun, Leaves, ExprRuns;
    var i := Op(c2.nextId, Icmp(cmp), [vl, vr]);
    var c3 := Append(c2, i);
    var j := Op(c3.nextId, Zext, [Res(c2.nextId)]);
    StageTrans(c, c1, c2, env);
    StageUsable(c1, c2, env, vl);
    Emit(c, c2, env, i);
    Emit(c, c3, env, j);
    forall w, scopes, r | Premise(w, Append(c3, j), env, scopes, r)
      ensures ExprRun(w, c, Append(c3, j), env, isVoid, scopes, r, Ast.Relation(cmp, left, right), Res(c3.nextId))
    {
      RelationRun(w, c, c1, c2, env, isVoid, scopes, r, cmp, left, vl, right, vr);
    }
    RunsIntro(c, Append(c3, j), env, isVoid, Ast.Relation(cmp, left, right), Res(c3.nextId));
  }

  lemma RelationRun(w: World, c: Code, c1: Code, c2: Code, env: Env, isVoid: bool, scopes: Ast.Scopes, r: Regs,
                    cmp: Comparison, left: Ast.Expr, vl: Val, right: Ast.Expr, vr: Val)
    requires ExprDone(c, c1, env, isVoid, left, vl) && ExprDone(c1, c2, env, isVoid, right, vr)
    requires var c3 := Append(c2, Op(c2.nextId, Icmp(cmp), [vl, vr]));
             Stage(c, c3, env) && Stage(c, Append(c3, Op(c3.nextId, Zext, [Res(c2.nextId)])), env)
             && Premise(w, Append(c3, Op(c3.nextId, Zext, [Res(c2.nextId)])), env, scopes, r)
    ensures var c3 := Append(c2, Op(c2.nextId, Icmp(cmp), [vl, vr]));
            ExprRun(w, c, Append(c3, Op(c3.nextId, Zext, [Res(c2.nextId)])), env, isVoid, scopes, r,
                    Ast.Relation(cmp, left, right), Res(c3.nextId))
  {
    hide ExprDone, Stage, CodeOk, EnvOk, Comes, Leaves, ExprRuns, Eval, Related, FinalOf, OutcomeRun, ExprRun;
    var i := Op(c2.nextId, Icmp(cmp), [vl, vr]);
    var c3 := Append(c2, i);
    var j := Op(c3.nextId, Zext, [Res(c2.nextId)]);
    DoneFacts(c, c1, env, isVoid, left, vl);
    DoneFacts(c1, c2, env, isVoid, right, vr);
    StageFacts(c, c3, env);
    StageFacts(c, Append(c3, j), env);
    PremiseBefore(w, c, c3, env, j, scopes, r);
    PremiseBefore(w, c1, c2, env, i, scopes, r);
    BothRuns(w, c, c1, c2, env, isVoid, scopes, r, left, vl, right, vr);
    var o := Ast.Eval(w.sem, scopes, r.events, Ast.Relation(cmp, left, right));
    if o.Value? {
      var a := Ast.Eval(w.sem, scopes, r.events, left);
      var b := Ast.Eval(w.sem, a.scopes, a.events, right);
      var r2 :| Comes(w, c, c2, env, r, r2, b.scopes, b.events) && Eval(w.args, r2.env, vl) == a.v && Eval(w.args, r2.env, vr) == b.v;
      EvalThree(w.args, r2.env, vl, vr, vr);
      var r3 := PureStep(w, c, c2, env, r, r2, b.scopes, b.events, Icmp(cmp), [vl, vr]);
      EvalThree(w.args, r3.env, Res(c2.nextId), vr, vr);
      var r4 := PureStep(w, c, c3, env, r, r3, b.scopes, b.events, Zext, [Res(c2.nextId)]);
      Gives(w, c, Append(c3, j), env, isVoid, r, o, Res(c3.nextId), r4);
    } else {
      Quits(w, c, Append(c3, j), env, isVoid, r, o, Res(c3.nextId));
    }
    ExprIntro(w, c, Append(c3, j), env, isVoid, scopes, r, Ast.Relation(cmp, left, right), Res(c3.nextId));
  }

  // ----- assignment -----

  function WriteInstr(b: Binding, id: Id, v: Val): Instr
    requires b.IntSlot? || b.GlobalVar?
  {
    match b
    case IntSlot(x) => Store(v, x)
    case GlobalVar(a) => Op(id, StorePtr, [v, a])
  }

  lemma AssignDone(c: Code, c1: Code, env: Env, isVoid: bool, x: Name, rhs: Ast.Expr, v: Val)
    requires ExprDone(c, c1, env, isVoid, rhs, v) && Assignable(env, x)
    ensures ExprDone(c, Append(c1, WriteInstr(Ast.Lookup(env, x).value, c1.nextId, v)), env, isVoid, Ast.Assign(x, rhs), v)
  {
    hide Certified, EnvOk, Comes, Premise, ExprRun, Leaves, ExprRuns;
    var i := WriteInstr(Ast.Lookup(env, x).value, c1.nextId, v);
    LookupAvail(env, AvailNow(c1), x);
    Emit(c, c1, env, i);
    forall w, scopes, r | Premise(w, Append(c1, i), env, scopes, r)
      ensures ExprRun(w, c, Append(c1, i), env, isVoid, scopes, r, Ast.Assign(x, rhs), v)
    {
      AssignRun(w, c, c1, env, isVoid, scopes, r, x, rhs, v);
    }
    RunsIntro(c, Append(c1, i), env, isVoid, Ast.Assign(x, rhs), v);
  }

  lemma AssignRun(w: World, c: Code, c1: Code, env: Env, isVoid: bool, scopes: Ast.Scopes, r: Regs, x: Name, rhs: Ast.Expr, v: Val)
    requires ExprDone(c, c1, env, isVoid, rhs, v) && Assignable(env, x)
    requires var i := WriteInstr(Ast.Lookup(env, x).value, c1.nextId, v); CodeOk(Append(c1, i)) && Premise(w, Append(c1, i), env, scopes, r)
    ensures ExprRun(w, c, Append(c1, WriteInstr(Ast.Lookup(env, x).value, c1.nextId, v)), env, isVoid, scopes, r, Ast.Assign(x, rhs), v)
  {
    hide ExprDone, Stage, CodeOk, EnvOk, Leaves, ExprRuns, Eval, Related, FinalOf, Comes, KeepsEnv, Ast.Write, WriteInstr;
    var b := Ast.Lookup(env, x).value;
    var i := WriteInstr(b, c1.nextId, v);
    DoneFacts(c, c1, env, isVoid, rhs, v);
    PremiseBefore(w, c, c1, env, i, scopes, r);
    UseExpr(w, c, c1, env, isVoid, scopes, r, rhs, v);
    var o := Ast.Eval(w.sem, scopes, r.events, Ast.Assign(x, rhs));
    var a := Ast.Eval(w.sem, scopes, r.events, rhs);
    if a.Value? {
      var r1 :| Comes(w, c, c1, env, r, r1, a.scopes, a.events) && Eval(w.args, r1.env, v) == a.v;
      ComesFacts(w, c, c1, env, r, r1, a.scopes, a.events);
      WriteRun(w, c, c1, env, isVoid, r, r1, a.scopes, a.events, x, v);
    } else {
      Quits(w, c, Append(c1, i), env, isVoid, r, o, v);
    }
    ExprIntro(w, c, Append(c1, i), env, isVoid, scopes, r, Ast.Assign(x, rhs), v);
  }

  lemma WriteRun(w: World, c: Code, c1: Code, env: Env, isVoid: bool, r: Regs, r1: Regs, scopes: Ast.Scopes, events: seq<Event>, x: Name, v: Val)
    requires Stage(c, c1, env) && CodeOk(c) && CodeOk(c1) && Below(v, c1.nextId) && Assignable(env, x)
    requires Comes(w, c, c1, env, r, r1, scopes, events)
    requires var i := WriteInstr(Ast.Lookup(env, x).value, c1.nextId, v); CodeOk(Append(c1, i)) && FinalOf(Append(c1, i), w.f)
    ensures OutcomeRun(w, c, Append(c1, WriteInstr(Ast.Lookup(env, x).value, c1.nextId, v)), env, isVoid, r,
                       Ast.Write(w.sem, scopes, events, x, Eval(w.args, r1.env, v)), v)
  {
    hide Stage, CodeOk, EnvOk, Eval, Related, FinalOf, Comes, KeepsEnv, OutcomeRun;
    StageFacts(c, c1, env);
    ComesFacts(w, c, c1, env, r, r1, scopes, events);
    FindSame(env, scopes, w.args, r1, x);
    var b := Ast.Lookup(env, x).value;
    var o := Ast.Write(w.sem, scopes, events, x, Eval(w.args, r1.env, v));
    if b.IntSlot? {
      var r2 := StoreStep(w, c, c1, env, r, r1, scopes, events, x, v);
      Gives(w, c, Append(c1, Store(v, b.x)), env, isVoid, r, o, v, r2);
    } else {
      EvalThree(w.args, r1.env, v, b.v, v);
      var r2 := OutsideStep(w, c, c1, env, r, r1, scopes, events, StorePtr, [v, b.v]);
      KeepsValue(w.args, r1, r2, c1.nextId, v);
      Gives(w, c, Append(c1, Op(c1.nextId, StorePtr, [v, b.v])), env, isVoid, r, o, v, r2);
    }
  }
}
