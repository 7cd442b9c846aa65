/** The finished function as a control-flow graph: it is what the later passes expect,
    and running it block by block does what calling the source function does. */
module CompiledCode {
  import opened Common
  import opened Cfg
  import opened Ir
  import opened Building
  import opened Translation
  import opened ExprCode
  import opened IndexCode
  import opened StmtCode
  import opened ScopeCode
  import opened FunctionCode
  import opened Closing
  import Ast

  ghost function FuncOf(c: Code, pre: Edges, succ: Edges): Func {
    Func(Graph(0, seq(c.count, i => i), pre, succ), map b | b in c.body :: [], c.body, c.term)
  }

  /** Every block is ended, and the lists say what the terminators say. */
  ghost predicate Complete(c: Code, pre: Edges, succ: Edges) {
    && CodeOk(c) && Certified(c) && 0 <= c.nextId && Mirrored(c.count, c.term, pre, succ)
    && forall b | 0 <= b < c.count :: b in c.term
  }

  /** The return at the end leaves no block without an end. */
  lemma EndedComplete(d: Ast.FunDecl, env: Env, c1: Code, c2: Code, c3: Code, env1: Env, env2: Env, pre: Edges, succ: Edges)
    requires ParamsDone(StartCode(), c1, env + [map[]], env1, d.params) && DeclsDone(c1, c2, env1, env2, d.decls)
    requires ListDone(c2, c3, env2, d.isVoid, d.stmts)
    requires Closed(StartCode(), c3) && Mirrored(c3.count, c3.term, pre, succ)
    ensures CodeOk(c3) && (c3.cur !in c3.term ==> Ended(c3, d.isVoid) == Branch(c3, DefaultRet(d.isVoid), c3.cur))
    ensures var c := Ended(c3, d.isVoid);
            Built(d, env, c) && (Mirrored(c.count, c.term, pre, succ) ==> Complete(c, pre, succ))
  {
    hide ParamsDone, DeclsDone, ListDone, Mirrored, ParamsRuns, DeclsRuns, ListRuns, Stage, EnvOk, EnvAvail, CodeOk, Certified, Phase, Closed, Grew;
    PartsFacts(c1, c2, c3, env + [map[]], env1, env2, d);
    assert BuiltBy(d, env, Ended(c3, d.isVoid), c1, c2, c3, env1, env2);
    EndedBlocks(c1, c2, c3, env2, d.isVoid);
  }

  lemma EndedBlocks(c1: Code, c2: Code, c3: Code, env2: Env, isVoid: bool)
    requires CodeOk(StartCode()) && CodeOk(c1) && CodeOk(c2) && CodeOk(c3) && Phase(c2, c3, env2) && Closed(StartCode(), c3)
    requires 0 <= StartCode().nextId <= c2.nextId
    ensures var c := Ended(c3, isVoid); CodeOk(c) && Certified(c) && 0 <= c.nextId && forall b | 0 <= b < c.count :: b in c.term
  {
    hide Certified, EnvOk, AvailNow, EnvAvail;
    if c3.cur !in c3.term {
      BranchCertified(c3, DefaultRet(isVoid), c3.cur);
    }
  }

  // ----- well-formed -----

  lemma FuncWellFormed(c: Code, pre: Edges, succ: Edges)
    requires Complete(c, pre, succ)
    ensures WellFormedFunc(FuncOf(c, pre, succ))
  {
    hide Certified;
    var g := FuncOf(c, pre, succ).graph;
    assert forall b :: b in g.blocks <==> 0 <= b < c.count by {
      forall b | 0 <= b < c.count ensures b in g.blocks {
        assert g.blocks[b] == b;
      }
    }
    forall u, v | u in g.blocks && v in g.succ[u] ensures v in g.blocks && u in g.pre[v] {
      assert v in Targets(c.term[u]);
    }
    forall u, v | v in g.blocks && u in g.pre[v] ensures u in g.blocks && v in g.succ[u] {
      assert Sources(c.count, succ, v, pre[v]);
    }
  }

  lemma InBlocks(c: Code, pre: Edges, succ: Edges, b: Block)
    ensures b in FuncOf(c, pre, succ).graph.blocks <==> 0 <= b < c.count
  {
    if 0 <= b < c.count {
      assert FuncOf(c, pre, succ).graph.blocks[b] == b;
    }
  }

  /** A name that is available at a block has been defined on every path to it. */
  lemma {:induction false} DefinedOnPath(c: Code, pre: Edges, succ: Edges, p: seq<Block>, b: Block, id: Id) returns (k: nat)
    requires Complete(c, pre, succ) && PathTo(FuncOf(c, pre, succ).graph, p, b) && b in c.avail && id in c.avail[b]
    ensures k < |p| - 1 && p[k] in c.body && id in DefinedIn(c.body[p[k]])
    decreases |p|
  {
    var g := FuncOf(c, pre, succ).graph;
    var n := |p| - 1;
    assert c.avail[0] == {} && b != 0;
    var u := p[n - 1];
    assert Edge(g, p[n - 1], p[n - 1 + 1]);
    InBlocks(c, pre, succ, u);
    assert b in Targets(c.term[u]);
    assert c.avail[b] <= AvailAt(c, u, |c.body[u]|);
    assert c.body[u][..|c.body[u]|] == c.body[u];
    if id in DefinedIn(c.body[u]) {
      k := n - 1;
    } else {
      PathPrefix(g, p, b, n - 1);
      k := DefinedOnPath(c, pre, succ, p[..n], u, id);
    }
  }

  lemma DefinedAtIn(c: Code, pre: Edges, succ: Edges, b: Block, id: Id) returns (i: nat)
    requires CodeOk(c) && b in c.body && id in DefinedIn(c.body[b])
    ensures DefinedAt(FuncOf(c, pre, succ), id, b, i)
  {
    var instr :| instr in c.body[b] && Defines(instr) == Some(id);
    i :| 0 <= i < |c.body[b]| && c.body[b][i] == instr;
    InBlocks(c, pre, succ, b);
  }

  /** Where a name is available, its one definition strictly dominates. */
  lemma AvailDominated(c: Code, pre: Edges, succ: Edges, b: Block, id: Id)
    requires Complete(c, pre, succ) && b in c.avail && id in c.avail[b] && Reachable(FuncOf(c, pre, succ).graph, b)
    ensures exists d, j :: DefinedAt(FuncOf(c, pre, succ), id, d, j) && StrictlyDominates(FuncOf(c, pre, succ).graph, d, b)
  {
    hide UsesOk, EdgesOk, Mirrored;
    var f := FuncOf(c, pre, succ);
    var g := f.graph;
    var p0 :| PathTo(g, p0, b);
    var p := SimplePath(g, p0, b);
    var k := DefinedOnPath(c, pre, succ, p, b, id);
    var d := p[k];
    var j := DefinedAtIn(c, pre, succ, d, id);
    forall q | PathTo(g, q, b) ensures d in q {
      var k' := DefinedOnPath(c, pre, succ, q, b, id);
      var j' := DefinedAtIn(c, pre, succ, q[k'], id);
      SameDefinition(c, pre, succ, id, d, j, q[k'], j');
    }
    assert d != b;
  }

  lemma SameDefinition(c: Code, pre: Edges, succ: Edges, id: Id, b: Block, i: int, d: Block, j: int)
    requires CodeOk(c) && IdsOnce(c) && DefinedAt(FuncOf(c, pre, succ), id, b, i) && DefinedAt(FuncOf(c, pre, succ), id, d, j)
    ensures b == d && i == j
  {
    assert Defines(c.body[b][i]).Some? && Defines(c.body[b][i]) == Defines(c.body[d][j]);
  }

  lemma ValuesDominated(c: Code, pre: Edges, succ: Edges, b: Block, i: nat, vs: seq<Val>)
    requires Complete(c, pre, succ) && 0 <= b < c.count && i <= |c.body[b]| && UsesAvail(AvailAt(c, b, i), vs)
    requires Reachable(FuncOf(c, pre, succ).graph, b)
    ensures AllAvailable(FuncOf(c, pre, succ), vs, b, i)
  {
    hide UsesOk, EdgesOk, Mirrored, IdsOnce, StrictlyDominates, Reachable;
    var f := FuncOf(c, pre, succ);
    forall v | v in vs && v.Res? ensures Available(f, v.id, b, i) {
      if v.id in c.avail[b] {
        AvailDominated(c, pre, succ, b, v.id);
        var d, j :| DefinedAt(f, v.id, d, j) && StrictlyDominates(f.graph, d, b);
      } else {
        var instr :| instr in c.body[b][..i] && Defines(instr) == Some(v.id);
        var j :| 0 <= j < i && c.body[b][..i][j] == instr;
        InBlocks(c, pre, succ, b);
        assert DefinedAt(f, v.id, b, j);
      }
    }
  }

  /** The function is well-formed, with unique names, definitions that dominate their uses, an entry
      that nothing branches to, and no phis. */
  lemma ReadyForPasses(c: Code, pre: Edges, succ: Edges)
    requires Complete(c, pre, succ)
    ensures var f := FuncOf(c, pre, succ);
            && WellFormedFunc(f) && UniqueIds(f) && UsesDominated(f)
            && (forall b | b in f.graph.blocks :: f.phis[b] == [])
            && (forall u :: !Edge(f.graph, u, f.graph.entry))
            && forall id, b, i | DefinedAt(f, id, b, i) :: id < c.nextId
  {
    var f := FuncOf(c, pre, succ);
    FuncWellFormed(c, pre, succ);
    forall id, b, i, d, j | DefinedAt(f, id, b, i) && DefinedAt(f, id, d, j) ensures b == d && i == j {
      SameDefinition(c, pre, succ, id, b, i, d, j);
    }
    AllDominated(c, pre, succ);
    forall u ensures !Edge(f.graph, u, f.graph.entry) {
      InBlocks(c, pre, succ, u);
      if u in c.term {
        assert 0 !in Targets(c.term[u]);
      }
    }
  }

  lemma AllDominated(c: Code, pre: Edges, succ: Edges)
    requires Complete(c, pre, succ)
    ensures UsesDominated(FuncOf(c, pre, succ))
  {
    hide AllAvailable, Reachable, UsesAvail, Mirrored, IdsOnce;
    var f := FuncOf(c, pre, succ);
    forall b | b in f.graph.blocks && Reachable(f.graph, b) && b in f.body && b in f.term
      ensures forall i | 0 <= i < |f.body[b]| :: AllAvailable(f, Uses(f.body[b][i]), b, i)
      ensures AllAvailable(f, TermUses(f.term[b]), b, |f.body[b]|)
    {
      InBlocks(c, pre, succ, b);
      forall i | 0 <= i < |f.body[b]| ensures AllAvailable(f, Uses(f.body[b][i]), b, i) {
        ValuesDominated(c, pre, succ, b, i, Uses(f.body[b][i]));
      }
      ValuesDominated(c, pre, succ, b, |f.body[b]|, TermUses(f.term[b]));
    }
  }

  // ----- block by block -----

  ghost function SpotOf(m: Machine): Spot {
    match m
    case Running(b, r) => Mid(b, 0, r)
    case Returned(v, r) => End(v, r)
  }

  lemma {:induction false} MicroSteps(w: World, b: Block, r: Regs, k: nat)
    requires b in w.f.body && k <= |w.f.body[b]|
    ensures MicroRun(w, Mid(b, 0, r), k) == Mid(b, k, Steps(w.sem, w.args, r, w.f.body[b][..k]))
    decreases k
  {
    var instrs := w.f.body[b];
    if k > 0 {
      MicroSteps(w, b, r, k - 1);
      assert instrs[..k][..k - 1] == instrs[..k - 1] && instrs[..k][k - 1] == instrs[k - 1];
    }
  }

  /** A function without phis whose branches stay inside it. */
  ghost predicate Plain(f: Func) {
    && f.graph.entry in f.body
    && forall b | b in f.body :: b in f.term && b in f.phis && f.phis[b] == [] && forall t | t in Targets(f.term[b]) :: t in f.body
  }

  lemma MicroBlock(w: World, m: Machine)
    requires Plain(w.f) && (m.Running? ==> m.block in w.f.body)
    ensures exists k: nat :: k > 0 && MicroRun(w, SpotOf(m), k) == SpotOf(RunBlock(w.f, w.sem, w.args, m))
    ensures var m' := RunBlock(w.f, w.sem, w.args, m); m'.Running? ==> m'.block in w.f.body
  {
    if m.Running? {
      var instrs := w.f.body[m.block];
      var n := |instrs|;
      MicroSteps(w, m.block, m.regs, n);
      assert instrs[..n] == instrs;
      assert MicroRun(w, SpotOf(m), n + 1) == SpotOf(RunBlock(w.f, w.sem, w.args, m));
    } else {
      assert MicroRun(w, SpotOf(m), 0) == SpotOf(m);
      assert MicroRun(w, SpotOf(m), 1) == SpotOf(m);
    }
  }

  ghost function FirstSpot(f: Func): Spot {
    Mid(f.graph.entry, 0, FirstRegs())
  }

  /** Block steps and micro steps meet again and again. */
  lemma {:induction false} RunMicro(w: World, n: nat) returns (j: nat)
    requires Plain(w.f)
    ensures j >= n && MicroRun(w, FirstSpot(w.f), j) == SpotOf(Run(w.f, w.sem, w.args, n))
    ensures var m := Run(w.f, w.sem, w.args, n); m.Running? ==> m.block in w.f.body
  {
    if n == 0 {
      j := 0;
    } else {
      var i := RunMicro(w, n - 1);
      var m := Run(w.f, w.sem, w.args, n - 1);
      MicroBlock(w, m);
      var k: nat :| k > 0 && MicroRun(w, SpotOf(m), k) == SpotOf(RunBlock(w.f, w.sem, w.args, m));
      MicroAdd(w, FirstSpot(w.f), i, k);
      j := i + k;
    }
  }

  /** Later, events have only been added, what was returned stays, and clean has not come back. */
  lemma {:induction false} MicroLater(w: World, m: Spot, k: nat)
    ensures var m' := MicroRun(w, m, k); m.r.events <= m'.r.events && (m'.r.clean ==> m.r.clean) && (m.End? ==> m' == m)
    decreases k
  {
    if k > 0 {
      MicroLater(w, m, k - 1);
    }
  }

  lemma MicroOrder(w: World, m: Spot, i: nat, j: nat)
    requires i <= j
    ensures var a, b := MicroRun(w, m, i), MicroRun(w, m, j); a.r.events <= b.r.events && (b.r.clean ==> a.r.clean) && (a.End? ==> b == a)
  {
    hide MicroRun;
    MicroAdd(w, m, i, j - i);
    MicroLater(w, MicroRun(w, m, i), j - i);
  }

  // ----- the same behaviour -----

  ghost predicate HasReturned(m: Machine, val: Option<int>, events: seq<Event>) {
    m.Returned? && m.val == val && m.regs.events == events
  }

  /** The function returns this value after these events. */
  ghost predicate Returns(w: World, val: Option<int>, events: seq<Event>) {
    exists n :: HasReturned(Run(w.f, w.sem, w.args, n), val, events)
  }

  /** The function comes at least this far. */
  ghost predicate ComesTo(w: World, events: seq<Event>) {
    exists n :: events <= Run(w.f, w.sem, w.args, n).regs.events
  }

  ghost predicate Follows(w: World, eff: Ast.Effect) {
    match eff
    case Left(val, events) => Returns(w, val, events)
    case OutOfFuel(events) => ComesTo(w, events)
    case _ => false
  }

  ghost predicate SourceReturns(w: World, globals: Ast.Scopes, d: Ast.FunDecl, val: Option<int>, events: seq<Event>) {
    exists fuel: nat :: Ast.Invoke(w.sem, globals, d, w.args, fuel) == Ast.Left(val, events)
  }

  ghost predicate CameTo(eff: Ast.Effect, events: seq<Event>) {
    match eff
    case Left(_, e) => events <= e
    case OutOfFuel(e) => events <= e
    case _ => false
  }

  ghost predicate SourceComesTo(w: World, globals: Ast.Scopes, d: Ast.FunDecl, events: seq<Event>) {
    exists fuel: nat :: CameTo(Ast.Invoke(w.sem, globals, d, w.args, fuel), events)
  }

  /** The function behaves as the source function does: it returns exactly when the source function does,
      with the same value and events, and each comes as far as the other. */
  ghost predicate SameBehaviour(w: World, globals: Ast.Scopes, d: Ast.FunDecl) {
    && (forall fuel: nat :: Follows(w, Ast.Invoke(w.sem, globals, d, w.args, fuel)))
    && (forall n: nat :: FollowedBack(w, globals, d, Run(w.f, w.sem, w.args, n)))
  }

  ghost predicate FollowedBack(w: World, globals: Ast.Scopes, d: Ast.FunDecl, m: Machine) {
    && (m.Returned? ==> SourceReturns(w, globals, d, m.val, m.regs.events))
    && SourceComesTo(w, globals, d, m.regs.events)
  }

  lemma FirstEnd(w: World, eff: Ast.Effect, fuel: nat) returns (k: nat, r': Regs)
    requires InvokeRun(w, eff, fuel) && eff.Left? && w.f.graph.entry == 0
    ensures MicroRun(w, FirstSpot(w.f), k) == End(eff.val, r') && r'.events == eff.events && r'.clean
  {
    hide MicroRun;
    var q :| Reaches(w, Mid(0, 0, FirstRegs()), End(eff.val, q)) && q.events == eff.events && q.clean;
    r' := q;
    var i: nat :| ReachesIn(w, FirstSpot(w.f), End(eff.val, r'), i);
    k := i;
  }

  /** If the source function returns, so does its code, with the same value and events;
      if it has come somewhere, so has its code. */
  lemma CodeFollows(w: World, eff: Ast.Effect, fuel: nat) returns (n: nat)
    requires Plain(w.f) && w.f.graph.entry == 0 && InvokeRun(w, eff, fuel)
    ensures var m := Run(w.f, w.sem, w.args, n);
            && (eff.Left? ==> HasReturned(m, eff.val, eff.events)) && (eff.OutOfFuel? ==> eff.events <= m.regs.events)
  {
    hide MicroRun;
    n := 0;
    if eff.Left? {
      var k, r' := FirstEnd(w, eff, fuel);
      var j := RunMicro(w, k);
      MicroOrder(w, FirstSpot(w.f), k, j);
      n := k;
    } else if eff.OutOfFuel? {
      var k: nat :| k >= fuel && RunningAt(w, FirstSpot(w.f), k, eff.events);
      var j := RunMicro(w, k);
      MicroOrder(w, FirstSpot(w.f), k, j);
      n := k;
    }
  }

  /** With as much fuel as there were steps, the source function has come at least as far as its code. */
  lemma SourceFarther(w: World, n: nat, fuel: nat, eff: Ast.Effect)
    requires Plain(w.f) && w.f.graph.entry == 0 && InvokeRun(w, eff, fuel) && !eff.Wrong?
    requires MicroRun(w, FirstSpot(w.f), fuel) == SpotOf(Run(w.f, w.sem, w.args, n))
    ensures var m := Run(w.f, w.sem, w.args, n);
            m.regs.clean && (m.Returned? ==> eff == Ast.Left(m.val, m.regs.events)) && CameTo(eff, m.regs.events)
  {
    hide MicroRun;
    if eff.Left? {
      var k, r' := FirstEnd(w, eff, fuel);
      if fuel <= k {
        MicroOrder(w, FirstSpot(w.f), fuel, k);
      } else {
        MicroOrder(w, FirstSpot(w.f), k, fuel);
      }
    } else {
      var k: nat :| k >= fuel && RunningAt(w, FirstSpot(w.f), k, eff.events);
      MicroOrder(w, FirstSpot(w.f), fuel, k);
    }
  }

  // ----- the theorem -----

  /** A finished function, for a call that does not go wrong. */
  ghost predicate Compiles(w: World, globals: Ast.Scopes, d: Ast.FunDecl) {
    && Plain(w.f) && w.f.graph.entry == 0
    && forall fuel: nat ::
         var eff := Ast.Invoke(w.sem, globals, d, w.args, fuel); InvokeRun(w, eff, fuel) && !eff.Wrong?
  }

  /** After any number of blocks: nothing has been read that was not written, and the source function
      has come as far. */
  lemma CompiledStep(w: World, globals: Ast.Scopes, d: Ast.FunDecl, n: nat)
    requires Compiles(w, globals, d)
    ensures Run(w.f, w.sem, w.args, n).regs.clean && FollowedBack(w, globals, d, Run(w.f, w.sem, w.args, n))
  {
    hide Ast.Invoke, InvokeRun, MicroRun;
    var fuel := RunMicro(w, n);
    var eff := Ast.Invoke(w.sem, globals, d, w.args, fuel);
    SourceFarther(w, n, fuel, eff);
    assert CameTo(eff, Run(w.f, w.sem, w.args, n).regs.events);
  }

  /** Whatever refines the compiled function behaves as the source function does. */
  lemma RefinedSame(w: World, globals: Ast.Scopes, d: Ast.FunDecl, f': Func)
    requires Compiles(w, globals, d) && Refines(w.f, f')
    ensures SameBehaviour(World(f', w.sem, w.args), globals, d)
  {
    hide Ast.Invoke, InvokeRun, MicroRun, Compiles, Run;
    var w' := World(f', w.sem, w.args);
    forall fuel: nat ensures Follows(w', Ast.Invoke(w'.sem, globals, d, w'.args, fuel)) {
      CompiledFuel(w, globals, d, fuel);
      var eff := Ast.Invoke(w.sem, globals, d, w.args, fuel);
      var n := CodeFollows(w, eff, fuel);
      CompiledStep(w, globals, d, n);
      assert SameOutcome(Run(w.f, w.sem, w.args, n), Run(f', w.sem, w.args, n));
    }
    forall n: nat ensures FollowedBack(w', globals, d, Run(w'.f, w'.sem, w'.args, n)) {
      CompiledStep(w, globals, d, n);
      assert SameOutcome(Run(w.f, w.sem, w.args, n), Run(f', w.sem, w.args, n));
      SameSource(w, w', globals, d, Run(w.f, w.sem, w.args, n), Run(f', w.sem, w.args, n));
    }
  }

  lemma CompiledFuel(w: World, globals: Ast.Scopes, d: Ast.FunDecl, fuel: nat)
    requires Compiles(w, globals, d)
    ensures Plain(w.f) && w.f.graph.entry == 0
    ensures var eff := Ast.Invoke(w.sem, globals, d, w.args, fuel); InvokeRun(w, eff, fuel) && !eff.Wrong? && !eff.Normal?
  {
  }

  lemma SameSource(w: World, w': World, globals: Ast.Scopes, d: Ast.FunDecl, m: Machine, m': Machine)
    requires w'.sem == w.sem && w'.args == w.args && SameOutcome(m, m') && FollowedBack(w, globals, d, m)
    ensures FollowedBack(w', globals, d, m')
  {
    hide Ast.Invoke;
    if m.Returned? {
      var fuel: nat :| Ast.Invoke(w.sem, globals, d, w.args, fuel) == Ast.Left(m.val, m.regs.events);
      assert Ast.Invoke(w'.sem, globals, d, w'.args, fuel) == Ast.Left(m'.val, m'.regs.events);
    }
    var fuel: nat :| CameTo(Ast.Invoke(w.sem, globals, d, w.args, fuel), m.regs.events);
    assert CameTo(Ast.Invoke(w'.sem, globals, d, w'.args, fuel), m'.regs.events);
  }

  /** A call that uses names as they are declared, and reads no variable before it has a value. */
  ghost predicate GoodCall(sem: Sem, args: seq<int>, env: Env, globals: Ast.Scopes, d: Ast.FunDecl) {
    && Ast.Standard(sem) && Globals(env, globals, args)
    && forall fuel: nat :: !Ast.Invoke(sem, globals, d, args, fuel).Wrong?
  }

  /** The function that was built, and every refinement of it, behaves as its declaration says. */
  lemma BuiltSame(d: Ast.FunDecl, env: Env, c: Code, pre: Edges, succ: Edges, f': Func, sem: Sem, args: seq<int>, globals: Ast.Scopes)
    requires Built(d, env, c) && Complete(c, pre, succ) && Refines(FuncOf(c, pre, succ), f') && GoodCall(sem, args, env, globals, d)
    ensures SameBehaviour(World(f', sem, args), globals, d)
  {
    hide Built, Refines, Globals, SameBehaviour, Certified, Ast.Invoke, InvokeRun, Mirrored, Run;
    var w := World(FuncOf(c, pre, succ), sem, args);
    assert FinalOf(c, w.f);
    forall fuel: nat ensures InvokeRun(w, Ast.Invoke(sem, globals, d, args, fuel), fuel) {
      BuiltRun(w, d, env, c, globals, fuel);
    }
    RefinedSame(w, globals, d, f');
  }

  lemma RefinesItself(f: Func)
    ensures Refines(f, f)
  {
    hide Run;
  }
}
