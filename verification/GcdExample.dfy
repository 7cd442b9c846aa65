/** A whole function, from its syntax to the machine: the greatest common divisor by subtraction. */
module GcdExample {
  import opened Common
  import Ir
  import opened Ast
  import LoongArch
  import Translation
  import FunctionCode
  import Marking
  import CminusBuilder
  import Pipeline
  import LiveBlocks
  import MachineRun
  import Lowering
  import SourceMeaning
  import EndToEnd

  const A := VarRef("a")
  const B := VarRef("b")
  const STEP := If(Relation(Gt, A, B), Expression(Some(Assign("a", Arith(Minus, A, B)))), Some(Expression(Some(Assign("b", Arith(Minus, B, A))))))
  const LOOP := While(Relation(Ne, A, B), STEP)

  /** int gcd(int a, int b) { while (a != b) if (a > b) a = a - b; else b = b - a; return a; } */
  const GCD := FunDecl(false, [Param("a", false), Param("b", false)], [], [LOOP, Return(Some(A))])

  ghost predicate Times(d: int, k: int, n: int) {
    d * k == n
  }

  ghost predicate Divides(d: int, n: int) {
    exists k :: Times(d, k, n)
  }

  /** The greatest number that divides both. */
  ghost predicate IsGcd(g: int, x: int, y: int) {
    g > 0 && Divides(g, x) && Divides(g, y) && forall d | Divides(d, x) && Divides(d, y) :: d <= g
  }

  lemma DividesSum(d: int, x: int, y: int)
    requires Divides(d, y)
    ensures Divides(d, x + y) <==> Divides(d, x)
  {
    var k :| Times(d, k, y);
    if m :| Times(d, m, x) {
      assert Times(d, m + k, x + y);
    }
    var sum := x + y;
    if m :| Times(d, m, sum) {
      assert Times(d, m - k, x);
    }
  }

  lemma GcdShared(g: int, x: int, y: int)
    requires IsGcd(g, x, y)
    ensures IsGcd(g, x + y, y) && IsGcd(g, x, x + y)
  {
    hide Divides;
    forall d | Divides(d, y) ensures Divides(d, x + y) <==> Divides(d, x) {
      DividesSum(d, x, y);
    }
    forall d | Divides(d, x) ensures Divides(d, x + y) <==> Divides(d, y) {
      DividesSum(d, y, x);
    }
  }

  // ----- evaluating it -----

  ghost function Vars(globals: Scopes, x: int, y: int): Scopes {
    globals + [map["a" := IntVar(Some(x)), "b" := IntVar(Some(y))]]
  }

  lemma VarsRead(globals: Scopes, x: int, y: int)
    ensures Lookup(Vars(globals, x, y), "a") == Some(IntVar(Some(x))) && Lookup(Vars(globals, x, y), "b") == Some(IntVar(Some(y)))
  {
  }

  lemma VarsSet(globals: Scopes, x: int, y: int, v: int)
    ensures SetVar(Vars(globals, x, y), "a", v) == Vars(globals, v, y) && SetVar(Vars(globals, x, y), "b", v) == Vars(globals, x, v)
  {
    assert map["a" := IntVar(Some(x)), "b" := IntVar(Some(y))]["a" := IntVar(Some(v))] == map["a" := IntVar(Some(v)), "b" := IntVar(Some(y))];
    assert map["a" := IntVar(Some(x)), "b" := IntVar(Some(y))]["b" := IntVar(Some(v))] == map["a" := IntVar(Some(x)), "b" := IntVar(Some(v))];
  }

  lemma SubtractOnMachine(u: Lowering.Setup, globals: Scopes, x: int, y: int)
    requires 0 < x < LoongArch.TWO_31 && 0 < y < LoongArch.TWO_31
    ensures Eval(Lowering.Sem(u), Vars(globals, x, y), [], Arith(Minus, A, B)) == Value(x - y, Vars(globals, x, y), [])
    ensures Eval(Lowering.Sem(u), Vars(globals, x, y), [], Arith(Minus, B, A)) == Value(y - x, Vars(globals, x, y), [])
  {
    hide Lowering.Sem, Vars, Lookup;
    VarsRead(globals, x, y);
    var a, b, e := SourceMeaning.ArithOnMachine(u, Vars(globals, x, y), [], Minus, A, B);
    a, b, e := SourceMeaning.ArithOnMachine(u, Vars(globals, x, y), [], Minus, B, A);
  }

  /** One round of the loop. */
  lemma StepRuns(u: Lowering.Setup, globals: Scopes, x: int, y: int, fuel: nat)
    requires 0 < x < LoongArch.TWO_31 && 0 < y < LoongArch.TWO_31
    ensures Exec(Lowering.Sem(u), false, Vars(globals, x, y), [], STEP, fuel)
            == Normal(if x > y then Vars(globals, x - y, y) else Vars(globals, x, y - x), [])
  {
    hide Lowering.Sem, Vars, Lookup, SetVar;
    VarsRead(globals, x, y);
    VarsSet(globals, x, y, x - y);
    VarsSet(globals, x, y, y - x);
    SubtractOnMachine(u, globals, x, y);
  }

  lemma TestRuns(u: Lowering.Setup, globals: Scopes, x: int, y: int)
    ensures Eval(Lowering.Sem(u), Vars(globals, x, y), [], Relation(Ne, A, B)) == Value(if x != y then 1 else 0, Vars(globals, x, y), [])
  {
    hide Lowering.Sem, Vars, Lookup;
    VarsRead(globals, x, y);
  }

  lemma RoundRuns(u: Lowering.Setup, globals: Scopes, x: int, y: int, fuel: nat)
    requires 0 < x < LoongArch.TWO_31 && 0 < y < LoongArch.TWO_31 && fuel > 0
    ensures Exec(Lowering.Sem(u), false, Vars(globals, x, y), [], LOOP, fuel)
            == if x == y then Normal(Vars(globals, x, y), [])
               else Exec(Lowering.Sem(u), false, if x > y then Vars(globals, x - y, y) else Vars(globals, x, y - x), [], LOOP, fuel - 1)
  {
    hide Lowering.Sem, Vars, Lookup, SetVar, STEP, Eval;
    TestRuns(u, globals, x, y);
    StepRuns(u, globals, x, y, fuel - 1);
  }

  /** The loop ends, with the greatest common divisor in both variables. */
  lemma {:induction false} LoopRuns(u: Lowering.Setup, globals: Scopes, x: int, y: int, fuel: nat) returns (g: int)
    requires 0 < x < LoongArch.TWO_31 && 0 < y < LoongArch.TWO_31 && x + y <= fuel
    ensures IsGcd(g, x, y) && g < LoongArch.TWO_31
    ensures Exec(Lowering.Sem(u), false, Vars(globals, x, y), [], LOOP, fuel) == Normal(Vars(globals, g, g), [])
    decreases x + y
  {
    hide Lowering.Sem, Vars, Exec, LOOP, IsGcd;
    RoundRuns(u, globals, x, y, fuel);
    if x == y {
      g := x;
      GcdSame(x);
    } else if x > y {
      g := LoopRuns(u, globals, x - y, y, fuel - 1);
      GcdShared(g, x - y, y);
    } else {
      g := LoopRuns(u, globals, x, y - x, fuel - 1);
      GcdShared(g, x, y - x);
    }
  }

  lemma GcdSame(x: int)
    requires x > 0
    ensures IsGcd(x, x, x)
  {
    assert Times(x, 1, x);
    forall d | Divides(d, x) ensures d <= x {
      var k :| Times(d, k, x);
      if d > 0 && k > 0 {
        assert d * k >= d;
      }
    }
  }

  lemma ParamsBound(globals: Scopes, vals: seq<int>)
    requires |vals| >= 2
    ensures BindParams(globals + [map[]], GCD.params, vals) == Vars(globals, vals[0], vals[1])
  {
    var a, b := Param("a", false), Param("b", false);
    assert [a, b][..1] == [a] && [a][..0] == [];
    assert BindParams(globals + [map[]], [], vals) == globals + [map[]];
    assert BindParams(globals + [map[]], [a], vals) == globals + [map["a" := IntVar(Some(vals[0]))]];
  }

  lemma BodyRuns(sem: Ir.Sem, scopes: Scopes, s: Stmt, t: Stmt, fuel: nat)
    ensures var r := Exec(sem, false, scopes, [], s, fuel);
            ExecAll(sem, false, scopes, [], [s, t], fuel) == if r.Normal? then Exec(sem, false, r.scopes, r.events, t, fuel) else r
  {
    hide Exec;
    assert [s, t][..1] == [s] && [s][..0] == [];
    assert ExecAll(sem, false, scopes, [], [s], fuel) == Exec(sem, false, scopes, [], s, fuel);
  }

  /** A call of the function returns the greatest common divisor of its arguments. */
  lemma GcdReturns(u: Lowering.Setup, globals: Scopes, vals: seq<int>) returns (g: int)
    requires |vals| >= 2 && 0 < vals[0] < LoongArch.TWO_31 && 0 < vals[1] < LoongArch.TWO_31
    ensures IsGcd(g, vals[0], vals[1]) && Invoke(Lowering.Sem(u), globals, GCD, vals, vals[0] + vals[1]) == Left(Some(g), [])
  {
    hide Lowering.Sem, Vars, Lookup, LOOP, IsGcd, BindParams, ExecAll;
    var x, y := vals[0], vals[1];
    g := LoopRuns(u, globals, x, y, x + y);
    ParamsBound(globals, vals);
    BodyRuns(Lowering.Sem(u), Vars(globals, x, y), LOOP, Return(Some(A)), x + y);
    VarsRead(globals, g, g);
  }

  // ----- compiling and running it -----

  lemma GcdTyped(env: Translation.Env)
    ensures CminusBuilder.FunctionTyped(env, GCD)
  {
    var ks := Translation.KindsOf(env) + [map["a" := Translation.IntKind, "b" := Translation.IntKind]];
    assert Translation.KindsOf(env + [map[]]) == Translation.KindsOf(env) + [map[]];
    var a, b := Param("a", false), Param("b", false);
    assert [a, b][..1] == [a] && [a][..0] == [];
    assert FunctionCode.ParamKinds(Translation.KindsOf(env) + [map[]], [a]) == Translation.KindsOf(env) + [map["a" := Translation.IntKind]];
    assert FunctionCode.ParamKinds(Translation.KindsOf(env) + [map[]], [a, b]) == ks;
    assert Lookup(ks, "a") == Some(Translation.IntKind) && Lookup(ks, "b") == Some(Translation.IntKind);
    BodyTyped(ks);
    assert Translation.DeclareKinds(ks, []) == ks;
  }

  lemma BodyTyped(ks: Translation.Kinds)
    requires Lookup(ks, "a") == Some(Translation.IntKind) && Lookup(ks, "b") == Some(Translation.IntKind)
    ensures Translation.StmtTyped(ks, false, LOOP) && Translation.StmtTyped(ks, false, Return(Some(A)))
  {
    hide Lookup;
    assert Translation.Typed(ks, A) && Translation.Typed(ks, B);
    assert Translation.Typed(ks, Arith(Minus, A, B)) && Translation.Typed(ks, Arith(Minus, B, A));
    assert Translation.Typed(ks, Relation(Gt, A, B)) && Translation.Typed(ks, Relation(Ne, A, B));
    assert Translation.Typed(ks, Assign("a", Arith(Minus, A, B))) && Translation.Typed(ks, Assign("b", Arith(Minus, B, A)));
    assert Translation.StmtTyped(ks, false, STEP);
  }

  /** The pipeline does not fail on it. */
  lemma GcdSealed()
    ensures LiveBlocks.SealedList(GCD.stmts)
  {
    var inner := Expression(Some(Assign("a", Arith(Minus, A, B))));
    assert LiveBlocks.Sealed(inner) && LiveBlocks.ExitOf(inner).Going? && LiveBlocks.ExitOf(STEP).Going? && LiveBlocks.Sealed(STEP);
    assert LiveBlocks.Sealed(LOOP);
    assert GCD.stmts[..1] == [LOOP] && [LOOP][..0] == [];
    assert LiveBlocks.SealedList([LOOP]);
  }

  /** The compiled text leaves the greatest common divisor of its two arguments in a0. */
  lemma GcdOnMachine(u: Lowering.Setup, frameSize: nat, prog: seq<LoongArch.Asm>, st: LoongArch.State, pure: Marking.Pures,
                     env: Translation.Env, globals: Scopes) returns (k: nat, g: int)
    requires EndToEnd.MachineCall(u, frameSize, prog, st, pure) && Pipeline.Preserved(u.f, pure, env, GCD)
    requires FunctionCode.GlobalScope(env) && FunctionCode.Globals(env, globals, u.args)
    requires |u.args| >= 2 && 0 < u.args[0] < LoongArch.TWO_31 && 0 < u.args[1] < LoongArch.TWO_31
    ensures var m := MachineRun.Steps(prog, MachineRun.At(0, st), k);
            m.Exited? && LoongArch.Get(m.st.regs, LoongArch.A(0)) == g && IsGcd(g, u.args[0], u.args[1])
  {
    hide EndToEnd.MachineCall, Pipeline.Preserved, FunctionCode.GlobalScope, FunctionCode.Globals, EndToEnd.SourceCall, CminusBuilder.FunctionTyped, IsGcd, Invoke,
      Lowering.Sem, MachineRun.Steps;
    GcdTyped(env);
    EndToEnd.TypedCall(u, env, globals, GCD);
    g := GcdReturns(u, globals, u.args);
    k := EndToEnd.SourceOnMachine(u, frameSize, prog, st, pure, env, globals, GCD, u.args[0] + u.args[1], Some(g), []);
  }

  /** The builder and the passes make a function of it that does what it says. */
  method CompileGcd(builder: CminusBuilder.CminusfBuilder, callee: int, pure: Marking.Pures) returns (f: Ir.Func)
    requires FunctionCode.GlobalScope(builder.scope.inner) && !builder.requireLvalue
    modifies builder, builder.scope
    ensures Pipeline.Preserved(f, pure, builder.scope.inner, GCD)
  {
    hide Pipeline.Preserved, FunctionCode.GlobalScope, CminusBuilder.FunctionTyped;
    GcdTyped(Declare(builder.scope.inner, "gcd", Translation.FnName(callee)));
    GcdSealed();
    var outcome;
    outcome, f := Pipeline.CompileAndClean(builder, "gcd", callee, GCD, pure);
  }
}
