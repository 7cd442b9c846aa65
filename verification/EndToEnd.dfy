/** From the syntax to the machine: the emitted text of a compiled function does what its declaration says. */
module EndToEnd {
  import opened Common
  import Ir
  import Ast
  import Marking
  import Building
  import Translation
  import FunctionCode
  import Evaluation
  import CminusBuilder
  import CompiledCode
  import Pipeline
  import LoongArch
  import Frame
  import MachineRun
  import Lowering

  // ----- the machine's meaning is one that the other theorems are about -----

  /** Comparisons and zero extension are what the syntax takes them to be. */
  lemma MachineStandard(u: Lowering.Setup)
    ensures Ast.Standard(Lowering.Sem(u))
  {
  }

  /** The calls that cannot be removed. */
  ghost function VisibleCalls(pure: Marking.Pures, trace: LoongArch.Trace): LoongArch.Trace {
    if trace == [] then []
    else
      var last := trace[|trace| - 1];
      VisibleCalls(pure, trace[..|trace| - 1]) + if last.callee in pure then [] else [last]
  }

  /** Pure functions leave memory alone, and no function takes notice of calls of pure ones. */
  ghost predicate QuietCallees(k: LoongArch.Callees, pure: Marking.Pures) {
    && (forall c, vs, mem, trace | c in pure :: k.effect(c, vs, mem, trace) == mem)
    && (forall c, vs, mem, trace :: k.effect(c, vs, mem, trace) == k.effect(c, vs, mem, VisibleCalls(pure, trace)))
    && (forall c, vs, mem, trace :: k.val(c, vs, mem, trace) == k.val(c, vs, mem, VisibleCalls(pure, trace)))
  }

  ghost predicate SameOuter(pure: Marking.Pures, o: Lowering.Outer, o': Lowering.Outer) {
    o.mem == o'.mem && VisibleCalls(pure, o.trace) == VisibleCalls(pure, o'.trace)
  }

  lemma CallSeen(pure: Marking.Pures, trace: LoongArch.Trace, c: LoongArch.CallRecord)
    ensures VisibleCalls(pure, trace + [c]) == VisibleCalls(pure, trace) + if c.callee in pure then [] else [c]
  {
    assert (trace + [c])[..|trace|] == trace;
  }

  lemma StepSeen(k: LoongArch.Callees, pure: Marking.Pures, o: Lowering.Outer, o': Lowering.Outer, e: Ir.Event)
    requires QuietCallees(k, pure) && SameOuter(pure, o, o')
    ensures SameOuter(pure, Lowering.OuterStep(k, o, e), if Marking.Seen(pure, e) then Lowering.OuterStep(k, o', e) else o')
  {
    hide LoongArch.StoreBytes, VisibleCalls;
    if e.op.Call? {
      CallSeen(pure, o.trace, LoongArch.CallRecord(e.op.callee, e.args));
      CallSeen(pure, o'.trace, LoongArch.CallRecord(e.op.callee, e.args));
      assert k.effect(e.op.callee, e.args, o.mem, o.trace) == k.effect(e.op.callee, e.args, o.mem, VisibleCalls(pure, o.trace));
      assert k.effect(e.op.callee, e.args, o'.mem, o'.trace) == k.effect(e.op.callee, e.args, o'.mem, VisibleCalls(pure, o'.trace));
    }
  }

  /** Events that cannot be seen change neither memory nor the calls that can be seen. */
  lemma {:induction false} OuterVisible(k: LoongArch.Callees, pure: Marking.Pures, o: Lowering.Outer, events: seq<Ir.Event>)
    requires QuietCallees(k, pure)
    ensures SameOuter(pure, Lowering.After(k, o, events), Lowering.After(k, o, Marking.Visible(pure, events)))
    decreases |events|
  {
    hide QuietCallees, SameOuter, Lowering.OuterStep, Marking.Seen;
    if events == [] {
      OuterRefl(pure, o);
    } else {
      var init, last := events[..|events| - 1], events[|events| - 1];
      OuterVisible(k, pure, o, init);
      StepSeen(k, pure, Lowering.After(k, o, init), Lowering.After(k, o, Marking.Visible(pure, init)), last);
      if Marking.Seen(pure, last) {
        Lowering.AfterNext(k, o, Marking.Visible(pure, init), last);
      } else {
        assert Marking.Visible(pure, init) + [] == Marking.Visible(pure, init);
      }
    }
  }

  lemma OuterRefl(pure: Marking.Pures, o: Lowering.Outer)
    ensures SameOuter(pure, o, o)
  {
  }

  /** What loads find and calls return depends on visible events only. */
  lemma MachineTransparent(u: Lowering.Setup, pure: Marking.Pures)
    requires QuietCallees(u.l.callees, pure)
    ensures Marking.Transparent(Lowering.Sem(u), pure)
  {
    hide Lowering.After, Marking.Visible, VisibleCalls, Frame.LoadValue;
    var sem, k := Lowering.Sem(u), u.l.callees;
    forall events, op, vs ensures sem.outside(events, op, vs) == sem.outside(Marking.Visible(pure, events), op, vs) {
      OuterVisible(k, pure, u.o, events);
      var o, o' := Lowering.After(k, u.o, events), Lowering.After(k, u.o, Marking.Visible(pure, events));
      if op.Call? {
        assert k.val(op.callee, vs, o.mem, o.trace) == k.val(op.callee, vs, o.mem, VisibleCalls(pure, o.trace));
        assert k.val(op.callee, vs, o'.mem, o'.trace) == k.val(op.callee, vs, o'.mem, VisibleCalls(pure, o'.trace));
      }
    }
  }

  // ----- the whole way -----

  /** The machine has left the function as the source does: with its value, with what it has stored and called, and with the caller's registers. */
  ghost predicate LeftAs(u: Lowering.Setup, st: LoongArch.State, pure: Marking.Pures, val: Option<int>, events: seq<Ir.Event>, mm: MachineRun.Machine) {
    var o := Lowering.After(u.l.callees, u.o, events);
    && mm.Exited? && (val.Some? ==> LoongArch.Get(mm.st.regs, LoongArch.A(0)) == val.value)
    && LoongArch.Get(mm.st.regs, LoongArch.Sp) == LoongArch.Get(st.regs, LoongArch.Sp)
    && LoongArch.Get(mm.st.regs, LoongArch.Fp) == LoongArch.Get(st.regs, LoongArch.Fp)
    && LoongArch.Get(mm.st.regs, LoongArch.Ra) == LoongArch.Get(st.regs, LoongArch.Ra)
    && VisibleCalls(pure, mm.st.trace) == VisibleCalls(pure, o.trace)
    && forall a | !Frame.Private(u.l, a) :: LoongArch.ByteAt(mm.st.mem, a) == LoongArch.ByteAt(o.mem, a)
  }

  /** A call of the emitted text, in a state whose runs are safe. */
  ghost predicate MachineCall(u: Lowering.Setup, frameSize: nat, prog: seq<LoongArch.Asm>, st: LoongArch.State, pure: Marking.Pures) {
    && Lowering.SetupOk(u) && MachineRun.Implements(u.h, u.l.off, frameSize, prog) && MachineRun.Called(u.h, u.l.off, frameSize, u.vals, st)
    && u.l == MachineRun.FrameOf(st, u.l.off, u.h.ty, frameSize) && u.o == Lowering.Outer(st.mem, st.trace) && QuietCallees(u.l.callees, pure)
    && forall n: nat :: MachineRun.RunSafe(u.l, u.h, Lowering.StartOf(u), n)
  }

  /** The same call in the source: the globals are where the function expects them, and the evaluation does not go wrong. */
  ghost predicate SourceCall(u: Lowering.Setup, env: Translation.Env, globals: Ast.Scopes, d: Ast.FunDecl) {
    && FunctionCode.Globals(env, globals, u.args)
    && forall fuel: nat :: !Ast.Invoke(Lowering.Sem(u), globals, d, u.args, fuel).Wrong?
  }

  lemma GlobalsFit(env: Translation.Env, globals: Ast.Scopes, args: seq<int>)
    requires FunctionCode.Globals(env, globals, args) && FunctionCode.GlobalScope(env)
    ensures Evaluation.ScopesFit(Translation.KindsOf(env), globals)
  {
  }

  /** A well-typed function whose local variables are arrays can be called wherever its globals are. */
  lemma TypedCall(u: Lowering.Setup, env: Translation.Env, globals: Ast.Scopes, d: Ast.FunDecl)
    requires FunctionCode.GlobalScope(env) && CminusBuilder.FunctionTyped(env, d) && FunctionCode.Globals(env, globals, u.args)
    requires (forall c | c in d.decls :: c.isArray) && forall s | s in d.stmts :: Evaluation.ArraysOnly(s)
    ensures SourceCall(u, env, globals, d)
  {
    hide FunctionCode.GlobalScope, FunctionCode.Globals, Evaluation.ScopesFit, Evaluation.ArraysOnly, Translation.StmtTyped, Ast.Invoke, Lowering.Sem;
    var ks := Translation.KindsOf(env);
    GlobalsFit(env, globals, u.args);
    assert Translation.KindsOf(env + [map[]]) == ks + [map[]];
    forall fuel: nat ensures !Ast.Invoke(Lowering.Sem(u), globals, d, u.args, fuel).Wrong? {
      Evaluation.NeverWrong(Lowering.Sem(u), ks, globals, d, u.args, fuel);
    }
  }

  /** What the passes preserve holds of the machine's meaning of operations. */
  lemma SeenOnMachine(u: Lowering.Setup, pure: Marking.Pures, env: Translation.Env, globals: Ast.Scopes, d: Ast.FunDecl)
    requires Pipeline.Preserved(u.f, pure, env, d) && QuietCallees(u.l.callees, pure) && SourceCall(u, env, globals, d)
    ensures Pipeline.SameSeenBehaviour(Building.World(u.f, Lowering.Sem(u), u.args), pure, globals, d)
  {
    hide Ast.Standard, Marking.Transparent, QuietCallees, FunctionCode.Globals, Pipeline.SameSeenBehaviour, Ast.Invoke, Lowering.Sem;
    MachineStandard(u);
    MachineTransparent(u, pure);
    assert CompiledCode.GoodCall(Lowering.Sem(u), u.args, env, globals, d);
  }

  lemma LeftSame(u: Lowering.Setup, pure: Marking.Pures, st: LoongArch.State, prog: seq<LoongArch.Asm>, m: Ir.Machine, mm: MachineRun.Machine, events: seq<Ir.Event>)
    requires QuietCallees(u.l.callees, pure) && m.Returned? && Lowering.MachineFollows(u, prog, st, m, mm)
    requires Marking.Visible(pure, m.regs.events) == Marking.Visible(pure, events)
    ensures LeftAs(u, st, pure, m.val, events, mm)
  {
    hide QuietCallees, Lowering.After, Marking.Visible, VisibleCalls, Frame.Private;
    OuterVisible(u.l.callees, pure, u.o, m.regs.events);
    OuterVisible(u.l.callees, pure, u.o, events);
  }

  /** If the evaluation of the syntax returns, so does the machine, with the same value, memory and calls. */
  lemma SourceOnMachine(u: Lowering.Setup, frameSize: nat, prog: seq<LoongArch.Asm>, st: LoongArch.State, pure: Marking.Pures,
                        env: Translation.Env, globals: Ast.Scopes, d: Ast.FunDecl, fuel: nat, val: Option<int>, events: seq<Ir.Event>) returns (k: nat)
    requires MachineCall(u, frameSize, prog, st, pure) && Pipeline.Preserved(u.f, pure, env, d) && SourceCall(u, env, globals, d)
    requires Ast.Invoke(Lowering.Sem(u), globals, d, u.args, fuel) == Ast.Left(val, events)
    ensures LeftAs(u, st, pure, val, events, MachineRun.Steps(prog, MachineRun.At(0, st), k))
  {
    hide Ir.Run, Ast.Invoke, MachineRun.Steps, Marking.Visible, Lowering.SetupOk, MachineRun.Implements, MachineRun.Called, MachineRun.FrameOf,
      Pipeline.SeenBack, MachineRun.RunSafe, LeftAs, Lowering.MachineFollows, Pipeline.Preserved, SourceCall, QuietCallees;
    var w := Building.World(u.f, Lowering.Sem(u), u.args);
    SeenOnMachine(u, pure, env, globals, d);
    assert Pipeline.SeenFollows(w, pure, Ast.Invoke(w.sem, globals, d, w.args, fuel));
    var n: nat :| CompiledCode.HasReturned(Ir.Run(w.f, w.sem, w.args, n), val, Ir.Run(w.f, w.sem, w.args, n).regs.events)
                  && Marking.Visible(pure, Ir.Run(w.f, w.sem, w.args, n).regs.events) == Marking.Visible(pure, events);
    k := Lowering.TextRunsFunction(u, frameSize, prog, st, n);
    LeftSame(u, pure, st, prog, Ir.Run(w.f, w.sem, w.args, n), MachineRun.Steps(prog, MachineRun.At(0, st), k), events);
  }

  /** And only then: if the machine leaves the function, the evaluation of the syntax returns, and the machine has left as it does. */
  lemma MachineOnSource(u: Lowering.Setup, frameSize: nat, prog: seq<LoongArch.Asm>, st: LoongArch.State, pure: Marking.Pures,
                        env: Translation.Env, globals: Ast.Scopes, d: Ast.FunDecl, j: nat) returns (fuel: nat, val: Option<int>, events: seq<Ir.Event>)
    requires MachineCall(u, frameSize, prog, st, pure) && Pipeline.Preserved(u.f, pure, env, d) && SourceCall(u, env, globals, d)
    requires MachineRun.Steps(prog, MachineRun.At(0, st), j).Exited?
    ensures Ast.Invoke(Lowering.Sem(u), globals, d, u.args, fuel) == Ast.Left(val, events)
    ensures LeftAs(u, st, pure, val, events, MachineRun.Steps(prog, MachineRun.At(0, st), j))
  {
    hide Ir.Run, Ast.Invoke, MachineRun.Steps, Marking.Visible, Lowering.SetupOk, MachineRun.Implements, MachineRun.Called, MachineRun.FrameOf,
      Pipeline.SeenFollows, MachineRun.RunSafe, LeftAs, Pipeline.Preserved, SourceCall, QuietCallees, Lowering.After;
    var w, start := Building.World(u.f, Lowering.Sem(u), u.args), MachineRun.At(0, st);
    SeenOnMachine(u, pure, env, globals, d);
    var k := Lowering.TextRunsFunction(u, frameSize, prog, st, j);
    MachineRun.StaysExited(prog, MachineRun.Steps(prog, start, j), k - j);
    MachineRun.StepsAdd(prog, start, j, k - j);
    var m := Ir.Run(w.f, w.sem, w.args, j);
    assert Pipeline.SeenBack(w, pure, globals, d, m);
    val := m.val;
    events :| CompiledCode.SourceReturns(w, globals, d, val, events) && Marking.Visible(pure, events) == Marking.Visible(pure, m.regs.events);
    fuel :| Ast.Invoke(w.sem, globals, d, w.args, fuel) == Ast.Left(val, events);
    LeftSame(u, pure, st, prog, m, MachineRun.Steps(prog, start, j), events);
  }
}
