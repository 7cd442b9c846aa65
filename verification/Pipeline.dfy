/** From the syntax of a function to static single assignment: the builder, then the promotion
    of its variables to registers. */
module Pipeline {
  import opened Common
  import opened Cfg
  import opened DominatorAnalysis
  import opened Ir
  import opened Building
  import opened Translation
  import opened FunctionCode
  import opened Closing
  import opened CompiledCode
  import opened Layout
  import opened LiveBlocks
  import opened MemToReg
  import opened CminusBuilder
  import opened Marking
  import opened DeadCodeElimination
  import opened Ssa
  import opened NaturalLoops
  import opened LoopForm
  import opened BuiltLoops
  import opened CleanedForm
  import opened Hoisting
  import opened InvariantLoops
  import opened QuietLoops
  import opened StoresStay
  import LoopMotion
  import Ast

  lemma BuiltBodies(c: Code, pre: Edges, succ: Edges)
    requires Complete(c, pre, succ)
    ensures forall b :: b in c.body <==> 0 <= b < c.count
  {
  }

  lemma BuiltIsPassInput(c: Code, pre: Edges, succ: Edges)
    requires Complete(c, pre, succ)
    ensures PassInput(FuncOf(c, pre, succ), c.nextId)
  {
    ReadyForPasses(c, pre, succ);
  }

  /** The blocks that are reached, and the edges from others to them, by the syntax of the body. */
  lemma ReachedBySyntax(c: Code, pre: Edges, succ: Edges, reached: bool, tight: bool)
    requires Complete(c, pre, succ) && Shape(StartCode(), c, Stopped, reached, tight)
    ensures var g := FuncOf(c, pre, succ).graph;
            && (reached <==> forall b | b in g.blocks :: Reachable(g, b))
            && (tight <==> ReachableClosedUnderPred(g))
  {
    hide Certified, Mirrored, Reachable;
    var g := FuncOf(c, pre, succ).graph;
    var dead :| ShapeWith(StartCode(), c, dead, Stopped, reached, tight);
    forall b ensures (b in g.blocks <==> 0 <= b < c.count) && (b in g.blocks ==> (Reachable(g, b) <==> b !in dead)) {
      InBlocks(c, pre, succ, b);
      if b in g.blocks {
        ReachedExactly(c, pre, succ, dead, b);
      }
    }
    FuncWellFormed(c, pre, succ);
    forall u, v ensures Goes(c, u, v) <==> Edge(g, u, v) {
      assert u in g.blocks ==> g.succ[u] == Targets(c.term[u]);
    }
    if reached {
      assert forall b | b in g.blocks :: Reachable(g, b);
    } else {
      var b := SomeElement(dead);
      assert b in g.blocks && !Reachable(g, b);
    }
    if tight {
      forall u, v | Edge(g, u, v) && Reachable(g, v) ensures Reachable(g, u) {
        ReachableInBlocks(g, v);
      }
    } else {
      var u, v :| u in dead && Goes(c, u, v) && v !in dead;
      assert Edge(g, u, v) && v in g.blocks;
    }
  }

  /** An if whose branches both return, at the end of a branch of another if: the block where they join
      is not reached, and it branches to one that is. */
  lemma ReturnsThenJoin(a: Ast.Expr, b: Ast.Expr, x: Ast.Expr, y: Ast.Expr, z: Ast.Expr)
    ensures var inner := Ast.If(b, Ast.Return(Some(x)), Some(Ast.Return(Some(y))));
            !AllReachedList([inner, Ast.Return(Some(z))]) && SealedList([inner, Ast.Return(Some(z))])
            && !SealedList([Ast.If(a, inner, None), Ast.Return(Some(z))]) && !Sealed(Ast.While(a, inner))
  {
    var inner := Ast.If(b, Ast.Return(Some(x)), Some(Ast.Return(Some(y))));
    assert Sealed(Ast.Return(Some(x))) && Sealed(Ast.Return(Some(y)));
    assert !AllReached(inner) && ExitOf(inner) == Lost && Sealed(inner);
    OneThenReturn(inner, z);
    OneThenReturn(Ast.If(a, inner, None), z);
  }

  lemma OneThenReturn(s: Ast.Stmt, z: Ast.Expr)
    ensures var list := [s, Ast.Return(Some(z))];
            (AllReachedList(list) <==> AllReached(s)) && (SealedList(list) <==> Sealed(s))
  {
    var list, one := [s, Ast.Return(Some(z))], [s];
    assert list[..|list| - 1] == one && one[..|one| - 1] == [] && one[|one| - 1] == s;
    assert ExitOfAll([]) == Going && AllReachedList([]) && SealedList([]);
    assert ExitOfAll(one) == ExitOf(s);
    assert AllReachedList(one) <==> AllReached(s);
    assert SealedList(one) <==> Sealed(s);
  }

  /** What comes out of promotion is fit for the passes after it. */
  lemma PromotedForm(f: Func, f': Func)
    requires WellFormedFunc(f) && CleanLoops(f) && ReachableClosedUnderPred(f.graph) && SameBranches(f, f')
    requires WellFormedFunc(f') && SsaForm(f') && PairsOnEdges(f') && f'.graph == f.graph
    ensures Form(f')
  {
    hide WellFormed, CleanLoops, SsaForm, PairsOnEdges, ReachableClosedUnderPred;
    RenamedClean(f, f');
  }

  /** The result of both passes behaves as the declaration says, in every call that does not go wrong;
      it has no stores left that can be reached. Promotion fails exactly when the body is not sealed:
      then an unreachable block branches to a reachable one. */
  method Compile(builder: CminusfBuilder, name: Name, callee: int, d: Ast.FunDecl) returns (outcome: Outcome, f: Func)
    requires GlobalScope(builder.scope.inner) && !builder.requireLvalue
    requires FunctionTyped(Ast.Declare(builder.scope.inner, name, FnName(callee)), d)
    modifies builder, builder.scope
    ensures builder.scope.inner == Ast.Declare(old(builder.scope.inner), name, FnName(callee))
    ensures outcome.Finished? <==> SealedList(d.stmts)
    ensures AllReachedList(d.stmts) <==> forall b | b in f.graph.blocks :: Reachable(f.graph, b)
    ensures Reducible(f.graph)
    ensures forall sem, args, globals | GoodCall(sem, args, builder.scope.inner, globals, d) ::
              SameBehaviour(World(f, sem, args), globals, d)
    ensures outcome.Finished? ==> forall b | b in f.graph.blocks && Reachable(f.graph, b) :: b in f.body && NoStores(f.body[b])
    ensures outcome.Finished? ==> Form(f) && DefinedOnce(f)
  {
    hide Form, SsaForm, PairsOnEdges, SameBranches, CleanLoops, Built, Complete, FunctionTyped, GoodCall, SameBehaviour, PassInput, Refines, ReachableClosedUnderPred, FuncOf, Reachable, Shape, Ordered, Reducible, StartCode,
      WellFormedFunc, DefinedOnce;
    builder.VisitFunDeclaration(name, callee, d);
    ghost var c, env := builder.Snap(), builder.scope.inner;
    BuiltBodies(c, builder.pre, builder.succ);
    f := builder.Finished();
    BuiltIsPassInput(c, builder.pre, builder.succ);
    BuiltReducible(c, builder.pre, builder.succ);
    ReachedBySyntax(c, builder.pre, builder.succ, AllReachedList(d.stmts), SealedList(d.stmts));
    ghost var built := f;
    var pass := new Mem2Reg(f, builder.nextId);
    outcome := pass.Run(f.graph);
    if outcome.Finished? {
      f := Func(f.graph, pass.phis, pass.body, pass.term);
      BuiltClean(c, builder.pre, builder.succ);
      PromotedForm(built, f);
    } else {
      RefinesItself(f);
    }
    forall sem, args, globals | GoodCall(sem, args, env, globals, d) ensures SameBehaviour(World(f, sem, args), globals, d) {
      BuiltSame(d, env, c, builder.pre, builder.succ, f, sem, args, globals);
    }
  }

  // ----- and then without dead code -----

  lemma {:induction false} VisiblePrefix(pure: Pures, a: seq<Event>, b: seq<Event>)
    requires a <= b
    ensures Visible(pure, a) <= Visible(pure, b)
    decreases |b|
  {
    if |a| < |b| {
      assert a <= b[..|b| - 1];
      VisiblePrefix(pure, a, b[..|b| - 1]);
    } else {
      assert a == b;
    }
  }

  ghost predicate SeenToReturn(w: World, pure: Pures, val: Option<int>, events: seq<Event>) {
    exists n :: HasReturned(Run(w.f, w.sem, w.args, n), val, Run(w.f, w.sem, w.args, n).regs.events)
                && Visible(pure, Run(w.f, w.sem, w.args, n).regs.events) == Visible(pure, events)
  }

  ghost predicate SeenToCome(w: World, pure: Pures, events: seq<Event>) {
    exists n :: Visible(pure, events) <= Visible(pure, Run(w.f, w.sem, w.args, n).regs.events)
  }

  ghost predicate SeenFollows(w: World, pure: Pures, eff: Ast.Effect) {
    match eff
    case Left(val, events) => SeenToReturn(w, pure, val, events)
    case OutOfFuel(events) => SeenToCome(w, pure, events)
    case _ => false
  }

  /** The source function returns this, after events that look like these. */
  ghost predicate SourceSeen(w: World, pure: Pures, globals: Ast.Scopes, d: Ast.FunDecl, val: Option<int>, events: seq<Event>) {
    exists all :: SourceReturns(w, globals, d, val, all) && Visible(pure, all) == Visible(pure, events)
  }

  ghost predicate SourceSeenToCome(w: World, pure: Pures, globals: Ast.Scopes, d: Ast.FunDecl, events: seq<Event>) {
    exists all :: SourceComesTo(w, globals, d, all) && Visible(pure, all) == Visible(pure, events)
  }

  ghost predicate SeenBack(w: World, pure: Pures, globals: Ast.Scopes, d: Ast.FunDecl, m: Machine) {
    && (m.Returned? ==> SourceSeen(w, pure, globals, d, m.val, m.regs.events))
    && SourceSeenToCome(w, pure, globals, d, m.regs.events)
  }

  /** As far as can be seen, the function does what the source function does: it returns exactly when that does,
      with the same value, and neither is ever ahead of the other. */
  ghost predicate SameSeenBehaviour(w: World, pure: Pures, globals: Ast.Scopes, d: Ast.FunDecl) {
    && (forall fuel: nat :: SeenFollows(w, pure, Ast.Invoke(w.sem, globals, d, w.args, fuel)))
    && (forall n: nat :: SeenBack(w, pure, globals, d, Run(w.f, w.sem, w.args, n)))
  }

  /** In every call that does not go wrong, wherever pure calls and loads change nothing, the function does what the declaration says,
      as far as can be seen. */
  ghost predicate Preserved(f: Func, pure: Pures, env: Env, d: Ast.FunDecl) {
    forall sem, args, globals | GoodCall(sem, args, env, globals, d) && Transparent(sem, pure) ::
      SameSeenBehaviour(World(f, sem, args), pure, globals, d)
  }

  /** What a function does exactly it does as far as can be seen. */
  lemma BehaviourSeen(w: World, pure: Pures, globals: Ast.Scopes, d: Ast.FunDecl)
    requires SameBehaviour(w, globals, d)
    ensures SameSeenBehaviour(w, pure, globals, d)
  {
    hide Run, Visible, Ast.Invoke;
    forall fuel: nat ensures SeenFollows(w, pure, Ast.Invoke(w.sem, globals, d, w.args, fuel)) {
      var eff := Ast.Invoke(w.sem, globals, d, w.args, fuel);
      assert Follows(w, eff);
      FollowsSeen(w, pure, eff);
    }
    forall n: nat ensures SeenBack(w, pure, globals, d, Run(w.f, w.sem, w.args, n)) {
      assert FollowedBack(w, globals, d, Run(w.f, w.sem, w.args, n));
    }
  }

  lemma FollowsSeen(w: World, pure: Pures, eff: Ast.Effect)
    requires Follows(w, eff)
    ensures SeenFollows(w, pure, eff)
  {
    hide Run, Visible;
    match eff
    case Left(val, events) =>
      var n: nat :| HasReturned(Run(w.f, w.sem, w.args, n), val, events);
    case OutOfFuel(events) =>
      var n: nat :| events <= Run(w.f, w.sem, w.args, n).regs.events;
      VisiblePrefix(pure, events, Run(w.f, w.sem, w.args, n).regs.events);
  }

  lemma FormFunc(f: Func)
    requires Form(f)
    ensures WellFormedFunc(f)
  {
    hide WellFormedFunc, LoopGraph, SsaForm, PairsOnEdges, CleanLoops;
  }

  lemma ReducedForm(f: Func, f': Func, pure: Pures)
    requires Reduced(f, f', pure) && Form(f)
    ensures Form(f')
  {
    hide WellFormedFunc, SeenAs, Count, Form;
  }

  /** All three passes: nothing that can be seen has changed since the syntax, and nothing more can go. */
  method CompileAndClean(builder: CminusfBuilder, name: Name, callee: int, d: Ast.FunDecl, pure: Pures) returns (outcome: Outcome, f: Func)
    requires GlobalScope(builder.scope.inner) && !builder.requireLvalue
    requires FunctionTyped(Ast.Declare(builder.scope.inner, name, FnName(callee)), d)
    modifies builder, builder.scope
    ensures builder.scope.inner == Ast.Declare(old(builder.scope.inner), name, FnName(callee))
    ensures outcome.Finished? <==> SealedList(d.stmts)
    ensures outcome.Finished? ==> Preserved(f, pure, builder.scope.inner, d) && Tidy(f, pure) && Form(f)
  {
    hide Form, FunctionTyped, GoodCall, SameBehaviour, SameSeenBehaviour, ReachableClosedUnderPred, Reachable, Reducible, WellFormedFunc, DefinedOnce, Reduced, Tidy,
      Transparent;
    outcome, f := Compile(builder, name, callee, d);
    if outcome.Finished? {
      ghost var ssa := f;
      FormFunc(f);
      var pass := new DeadCode(f, pure);
      pass.Run();
      f := Func(Graph(pass.entry, pass.blocks, pass.pre, pass.succ), pass.phis, pass.body, pass.term);
      ReducedSeen(ssa, f, pure);
      ReducedForm(ssa, f, pure);
      forall sem, args, globals | GoodCall(sem, args, builder.scope.inner, globals, d) && Transparent(sem, pure)
        ensures SameSeenBehaviour(World(f, sem, args), pure, globals, d)
      {
        BehaviourSeen(World(ssa, sem, args), pure, globals, d);
        SeenAgain(ssa, f, sem, args, pure, globals, d);
      }
    }
  }

  lemma ReducedSeen(f: Func, f': Func, pure: Pures)
    requires Reduced(f, f', pure)
    ensures SeenAs(pure, f, f')
  {
    hide WellFormedFunc, SeenAs, Count;
  }

  // ----- and then with invariant operations in front of the loops -----

  lemma {:induction false} StepsEvents(sem: Sem, args: seq<int>, r: Regs, instrs: seq<Instr>)
    ensures r.events <= Steps(sem, args, r, instrs).events
    decreases |instrs|
  {
    if instrs != [] {
      StepsEvents(sem, args, r, instrs[..|instrs| - 1]);
    }
  }

  /** Events only come to the end. */
  lemma {:induction false} RunEvents(f: Func, sem: Sem, args: seq<int>, n: nat, k: nat)
    requires n <= k
    ensures Run(f, sem, args, n).regs.events <= Run(f, sem, args, k).regs.events
    ensures Run(f, sem, args, n).Returned? ==> Run(f, sem, args, k) == Run(f, sem, args, n)
    decreases k
  {
    hide Steps;
    if n < k {
      RunEvents(f, sem, args, n, k - 1);
      var m := Run(f, sem, args, k - 1);
      if m.Running? && m.block in f.body && m.block in f.term {
        StepsEvents(sem, args, m.regs, f.body[m.block]);
      }
    }
  }

  /** What is seen of a part of the events is what is seen of some first part of them. */
  lemma {:induction false} VisiblePart(pure: Pures, all: seq<Event>, part: seq<Event>) returns (some: seq<Event>)
    requires part <= Visible(pure, all)
    ensures some <= all && Visible(pure, some) == part
    decreases |all|
  {
    if part == Visible(pure, all) {
      some := all;
    } else {
      var init := all[..|all| - 1];
      assert part <= Visible(pure, init);
      some := VisiblePart(pure, init, part);
    }
  }

  lemma ComesLess(w: World, globals: Ast.Scopes, d: Ast.FunDecl, all: seq<Event>, some: seq<Event>)
    requires SourceComesTo(w, globals, d, all) && some <= all
    ensures SourceComesTo(w, globals, d, some)
  {
    hide Ast.Invoke;
    var fuel: nat :| CameTo(Ast.Invoke(w.sem, globals, d, w.args, fuel), all);
    assert CameTo(Ast.Invoke(w.sem, globals, d, w.args, fuel), some);
  }

  lemma LagsForward(f: Func, f': Func, sem: Sem, args: seq<int>, pure: Pures, eff: Ast.Effect)
    requires SeenFollows(World(f, sem, args), pure, eff) && Lags(Some(pure), f, f') && Transparent(sem, pure)
    ensures SeenFollows(World(f', sem, args), pure, eff)
  {
    hide Run, Visible, Transparent;
    var w, view := World(f, sem, args), Some(pure);
    assert Honest(view, sem);
    match eff
    case Left(val, events) =>
      var n: nat :| HasReturned(Run(w.f, w.sem, w.args, n), val, Run(w.f, w.sem, w.args, n).regs.events)
                    && Visible(pure, Run(w.f, w.sem, w.args, n).regs.events) == Visible(pure, events);
      assert LagsAt(view, f, f', sem, args, n);
      var k: nat :| k >= n && SameLook(view, Run(f, sem, args, n), Run(f', sem, args, k));
      assert HasReturned(Run(f', sem, args, k), val, Run(f', sem, args, k).regs.events);
    case OutOfFuel(events) =>
      var n: nat :| Visible(pure, events) <= Visible(pure, Run(w.f, w.sem, w.args, n).regs.events);
      assert LagsAt(view, f, f', sem, args, n);
      var k: nat :| k >= n && SameLook(view, Run(f, sem, args, n), Run(f', sem, args, k));
      assert Visible(pure, events) <= Visible(pure, Run(f', sem, args, k).regs.events);
  }

  lemma LagsBackward(f: Func, f': Func, sem: Sem, args: seq<int>, pure: Pures, globals: Ast.Scopes, d: Ast.FunDecl, n: nat)
    requires SeenBack(World(f, sem, args), pure, globals, d, Run(f, sem, args, n)) && Lags(Some(pure), f, f') && Transparent(sem, pure)
    ensures SeenBack(World(f', sem, args), pure, globals, d, Run(f', sem, args, n))
  {
    hide Run, Visible, Ast.Invoke, Transparent;
    var w, w' := World(f, sem, args), World(f', sem, args);
    var m, m' := Run(f, sem, args, n), Run(f', sem, args, n);
    var view := Some(pure);
    assert Honest(view, sem);
    assert LagsAt(view, f, f', sem, args, n);
    var k: nat :| k >= n && SameLook(view, m, Run(f', sem, args, k));
    RunEvents(f', sem, args, n, k);
    VisiblePrefix(pure, m'.regs.events, Run(f', sem, args, k).regs.events);
    var all :| SourceComesTo(w, globals, d, all) && Visible(pure, all) == Visible(pure, m.regs.events);
    var some := VisiblePart(pure, all, Visible(pure, m'.regs.events));
    ComesLess(w, globals, d, all, some);
    SourceOther(w, w', globals, d, some);
    if m'.Returned? {
      var ended :| SourceReturns(w, globals, d, m.val, ended) && Visible(pure, ended) == Visible(pure, m.regs.events);
      ReturnsOther(w, w', globals, d, m.val, ended);
    }
  }

  /** What the source function does does not depend on what it was compiled to. */
  lemma SourceOther(w: World, w': World, globals: Ast.Scopes, d: Ast.FunDecl, events: seq<Event>)
    requires SourceComesTo(w, globals, d, events) && w'.sem == w.sem && w'.args == w.args
    ensures SourceComesTo(w', globals, d, events)
  {
    hide Ast.Invoke;
    var fuel: nat :| CameTo(Ast.Invoke(w.sem, globals, d, w.args, fuel), events);
    assert CameTo(Ast.Invoke(w'.sem, globals, d, w'.args, fuel), events);
  }

  lemma ReturnsOther(w: World, w': World, globals: Ast.Scopes, d: Ast.FunDecl, val: Option<int>, events: seq<Event>)
    requires SourceReturns(w, globals, d, val, events) && w'.sem == w.sem && w'.args == w.args
    ensures SourceReturns(w', globals, d, val, events)
  {
    hide Ast.Invoke;
    var fuel: nat :| Ast.Invoke(w.sem, globals, d, w.args, fuel) == Ast.Left(val, events);
    assert Ast.Invoke(w'.sem, globals, d, w'.args, fuel) == Ast.Left(val, events);
  }

  lemma LagsSeen(f: Func, f': Func, sem: Sem, args: seq<int>, pure: Pures, globals: Ast.Scopes, d: Ast.FunDecl)
    requires SameSeenBehaviour(World(f, sem, args), pure, globals, d) && Lags(Some(pure), f, f') && Transparent(sem, pure)
    ensures SameSeenBehaviour(World(f', sem, args), pure, globals, d)
  {
    hide Run, Visible, Ast.Invoke, SeenFollows, SeenBack, Lags, Transparent;
    forall fuel: nat ensures SeenFollows(World(f', sem, args), pure, Ast.Invoke(sem, globals, d, args, fuel)) {
      LagsForward(f, f', sem, args, pure, Ast.Invoke(sem, globals, d, args, fuel));
    }
    forall n: nat ensures SeenBack(World(f', sem, args), pure, globals, d, Run(f', sem, args, n)) {
      LagsBackward(f, f', sem, args, pure, globals, d, n);
    }
  }

  lemma SeenAgain(f: Func, f': Func, sem: Sem, args: seq<int>, pure: Pures, globals: Ast.Scopes, d: Ast.FunDecl)
    requires SameSeenBehaviour(World(f, sem, args), pure, globals, d) && SeenAs(pure, f, f') && Transparent(sem, pure)
    ensures SameSeenBehaviour(World(f', sem, args), pure, globals, d)
  {
    hide Run, Visible, Ast.Invoke, Transparent;
    var w, w' := World(f, sem, args), World(f', sem, args);
    forall fuel: nat ensures SeenFollows(w', pure, Ast.Invoke(sem, globals, d, args, fuel)) {
      assert SeenFollows(w, pure, Ast.Invoke(w.sem, globals, d, w.args, fuel));
      FollowsAgain(f, f', sem, args, pure, Ast.Invoke(sem, globals, d, args, fuel));
    }
    forall n: nat ensures SeenBack(w', pure, globals, d, Run(f', sem, args, n)) {
      BackAgain(f, f', sem, args, pure, globals, d, n);
    }
  }

  lemma FollowsAgain(f: Func, f': Func, sem: Sem, args: seq<int>, pure: Pures, eff: Ast.Effect)
    requires SeenFollows(World(f, sem, args), pure, eff) && SeenAs(pure, f, f') && Transparent(sem, pure)
    ensures SeenFollows(World(f', sem, args), pure, eff)
  {
    hide Run, Visible, Transparent;
    var w := World(f, sem, args);
    match eff
    case Left(val, events) =>
      var n: nat :| HasReturned(Run(w.f, w.sem, w.args, n), val, Run(w.f, w.sem, w.args, n).regs.events)
                    && Visible(pure, Run(w.f, w.sem, w.args, n).regs.events) == Visible(pure, events);
      assert SameSeen(pure, Run(f, sem, args, n), Run(f', sem, args, n));
    case OutOfFuel(events) =>
      var n: nat :| Visible(pure, events) <= Visible(pure, Run(w.f, w.sem, w.args, n).regs.events);
      assert SameSeen(pure, Run(f, sem, args, n), Run(f', sem, args, n));
  }

  lemma BackAgain(f: Func, f': Func, sem: Sem, args: seq<int>, pure: Pures, globals: Ast.Scopes, d: Ast.FunDecl, n: nat)
    requires SeenBack(World(f, sem, args), pure, globals, d, Run(f, sem, args, n)) && SeenAs(pure, f, f') && Transparent(sem, pure)
    ensures SeenBack(World(f', sem, args), pure, globals, d, Run(f', sem, args, n))
  {
    hide Run, Visible, Transparent, Ast.Invoke;
    var w, w' := World(f, sem, args), World(f', sem, args);
    var m, m' := Run(f, sem, args, n), Run(f', sem, args, n);
    assert SameSeen(pure, m, m');
    var all :| SourceComesTo(w, globals, d, all) && Visible(pure, all) == Visible(pure, m.regs.events);
    SourceOther(w, w', globals, d, all);
    if m'.Returned? {
      var ended :| SourceReturns(w, globals, d, m.val, ended) && Visible(pure, ended) == Visible(pure, m.regs.events);
      ReturnsOther(w, w', globals, d, m.val, ended);
    }
  }

  lemma FitOf(f: Func)
    requires Form(f) && RegisterLoops(f)
    ensures Fit(f)
  {
    hide WellFormed, SsaForm, RegisterLoops, CleanLoops;
  }

  /** In this form no value has two definitions. */
  lemma FitOnce(f: Func)
    requires Fit(f)
    ensures WellFormedFunc(f) && DefinedOnce(f)
  {
    hide RegisterLoops, CleanLoops, LoopGraph, BodyReady, TermReady, EdgeReady, WellFormed;
    forall x, y | ItemIn(f, x) && ItemIn(f, y) && Defined(x).Some? && Defined(x) == Defined(y) ensures x == y {
      var b, i := ItemPlace(f, x);
      var c, j := ItemPlace(f, y);
    }
  }

  lemma ItemPlace(f: Func, item: Item) returns (b: Block, i: int)
    requires WellFormedFunc(f) && ItemIn(f, item) && Defined(item).Some?
    ensures b in f.graph.blocks
    ensures item.PhiItem? ==> PhiAt(f, Defined(item).value, b, i) && f.phis[b][i] == item.phi
    ensures item.InstrItem? ==> DefinedAt(f, Defined(item).value, b, i) && f.body[b][i] == item.instr
  {
    hide WellFormed;
    b :| b in f.graph.blocks && ItemAt(f, b, item);
    if item.PhiItem? {
      i :| 0 <= i < |f.phis[b]| && f.phis[b][i] == item.phi;
    } else {
      i :| 0 <= i < |f.body[b]| && f.body[b][i] == item.instr;
    }
  }

  /** If loads and calls can be moved out of quiet loops only, code motion cannot be seen either. */
  lemma MovedPreserved(f: Func, moved: Func, f': Func, pure: Pures, impure: bool, env: Env, d: Ast.FunDecl)
    requires KeepsMeaning(impure, f, moved) && LoopsSafe(Some(pure), f, impure) && SeenAs(pure, moved, f') && Preserved(f, pure, env, d)
    ensures Preserved(f', pure, env, d)
  {
    hide GoodCall, Transparent, SameSeenBehaviour, Lags, LoopsSafe, SeenAs;
    forall sem, args, globals | GoodCall(sem, args, env, globals, d) && Transparent(sem, pure)
      ensures SameSeenBehaviour(World(f', sem, args), pure, globals, d)
    {
      LagsSeen(f, moved, sem, args, pure, globals, d);
      SeenAgain(moved, f', sem, args, pure, globals, d);
    }
  }

  /** Loop-invariant code motion and dead code elimination after the other passes, when no stack slot is read in a loop. If loads and
      calls can be moved out of quiet loops only, nothing that can be seen has changed since the syntax. In between no operation is
      left in a loop without an operand of that loop. */
  method MoveAndClean(f: Func, pure: Pures, impure: bool, next: Block) returns (ghost moved: Func, f': Func)
    requires Form(f) && RegisterLoops(f) && forall b | b in f.graph.blocks :: b < next
    ensures Fit(moved) && KeepsMeaning(impure, f, moved) && forall h | IsHeader(moved.graph, h) :: Settled(moved, impure, h) && NothingLeft(moved, impure, h)
    ensures Reduced(moved, f', pure) && Tidy(f', pure)
    ensures LoopsSafe(Some(pure), f, impure) ==> forall env, d | Preserved(f, pure, env, d) :: Preserved(f', pure, env, d)
  {
    hide Form, Fit, RegisterLoops, WellFormedFunc, DefinedOnce, Reduced, Tidy, Preserved, KeepsMeaning, LoopsSafe, Settled, NothingLeft, EffectsStay, IsHeader, SeenAs;
    FitOf(f);
    var motion := new LoopMotion.LoopInvariantCodeMotion(f, impure, next);
    var outcome := motion.Run();
    moved := motion.Code();
    f' := Func(motion.graph, motion.phis, motion.body, motion.term);
    FitOnce(moved);
    var pass := new DeadCode(f', pure);
    pass.Run();
    f' := Func(Graph(pass.entry, pass.blocks, pass.pre, pass.succ), pass.phis, pass.body, pass.term);
    ReducedSeen(moved, f', pure);
    if LoopsSafe(Some(pure), f, impure) {
      forall env, d | Preserved(f, pure, env, d) ensures Preserved(f', pure, env, d) {
        MovedPreserved(f, moved, f', pure, impure, env, d);
      }
    }
  }
}
