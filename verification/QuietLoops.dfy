/** Which loops loads and calls can be moved out of: those in which nothing happens that a load or a call could notice. */
module QuietLoops {
  import opened Common
  import opened Cfg
  import opened NaturalLoops
  import opened Ir
  import opened Ssa
  import opened Preheaders
  import opened Hoisting
  import opened HoistedForm
  import opened InvariantLoops
  import opened StoresStay
  import Marking

  /** Operations that can be moved out of the loop one after the other. */
  ghost predicate Chain(f: Func, impure: bool, h: Block, chain: seq<Instr>) {
    forall k | 0 <= k < |chain| :: chain[k].Op? && Movable(impure, chain[k]) && OfLoop(f, h, chain[k]) && OperandsReady(f, h, chain[..k], chain[k])
  }

  ghost predicate Findable(f: Func, impure: bool, h: Block, instr: Instr) {
    exists chain :: Chain(f, impure, h, chain) && instr in chain
  }

  /** Nothing happens in the loop that counts, or only pure operations can be moved out of it. */
  ghost predicate LoopSafe(view: View, f: Func, impure: bool, h: Block) {
    QuietLoop(view, f, h) || forall i | Findable(f, impure, h, i) && i.Op? :: IsPureOp(i.op)
  }

  ghost predicate LoopsSafe(view: View, f: Func, impure: bool) {
    forall h | IsHeader(f.graph, h) :: LoopSafe(view, f, impure, h)
  }

  /** What is moved can be found. */
  lemma PlanQuiet(view: View, f: Func, impure: bool, p: Plan)
    requires LoopSafe(view, f, impure, p.header) && MovedOk(f, p) && AllMovable(impure, p.moved)
    ensures Quietly(view, f, p)
  {
    hide InLoop, OperandsReady, OfLoop, Movable, QuietLoop, IsPureOp;
    assert Chain(f, impure, p.header, p.moved);
    forall k | 0 <= k < |p.moved| ensures Findable(f, impure, p.header, p.moved[k]) {
    }
  }

  // ----- after a loop has been rewritten -----

  /** What is in a loop now was in it before. */
  lemma OfLoopBefore(f: Func, f': Func, p: Plan, h: Block, instr: Instr)
    requires Preheadered(f, f', p) && LoopGraph(f'.graph) && h != p.preheader && OfLoop(f', h, instr)
    ensures OfLoop(f, h, instr)
  {
    hide Preheadered, InLoop, OnlyEntry, IdsOf, LoopGraph, EnteredOnce, Leaves;
    SplitParts(f, f', p);
    var b, k :| InLoop(f'.graph, h, b) && b in f'.graph.blocks && b in f'.body && 0 <= k < |f'.body[b]| && f'.body[b][k] == instr;
    var i := InstrFrom(f, f', p, b, k);
    if b == p.preheader {
      NewInLoop(f.graph, f'.graph, p.outside, p.header, p.preheader, h);
      MovedFrom(f, f', p, h, k);
    } else {
      LoopKept(f.graph, f'.graph, p.outside, p.header, p.preheader, h, b);
    }
  }

  lemma MovedFrom(f: Func, f': Func, p: Plan, h: Block, k: nat)
    requires Preheadered(f, f', p) && k < |p.moved| && InLoop(f.graph, h, p.header)
    ensures OfLoop(f, h, p.moved[k])
  {
    hide Hoisted, InLoop, OnlyEntry, LoopGraph, EnteredOnce, OperandsReady, EdgeSplit;
    PlanParts(f, p);
    assert OfLoop(f, p.header, p.moved[k]);
    var b, i :| InLoop(f.graph, p.header, b) && b in f.graph.blocks && b in f.body && 0 <= i < |f.body[b]| && f.body[b][i] == p.moved[k];
    InLoopTransitive(f.graph, h, p.header, b);
  }

  lemma QuietKept(view: View, f: Func, f': Func, p: Plan, h: Block)
    requires Preheadered(f, f', p) && LoopGraph(f'.graph) && h != p.preheader && QuietLoop(view, f, h)
    ensures QuietLoop(view, f', h)
  {
    hide Preheadered, InLoop, OnlyEntry, LoopGraph, EnteredOnce, Unseen, IsPureOp;
    forall b, i | InLoop(f'.graph, h, b) && b in f'.graph.blocks && b in f'.body && 0 <= i < |f'.body[b]| && f'.body[b][i].Op?
      ensures IsPureOp(f'.body[b][i].op) || Unseen(view, f'.body[b][i].op)
    {
      assert OfLoop(f', h, f'.body[b][i]);
      OfLoopBefore(f, f', p, h, f'.body[b][i]);
    }
  }

  /** A loop around the rewritten one defines what it defined. */
  lemma OuterDefines(f: Func, f': Func, p: Plan, h: Block, id: Id)
    requires Preheadered(f, f', p) && h != p.header && h != p.preheader && InLoop(f.graph, h, p.header) && DefinedInLoop(f, h, id)
    ensures DefinedInLoop(f', h, id)
  {
    hide Preheadered, InLoop, OnlyEntry, LoopGraph, EnteredOnce;
    SplitParts(f, f', p);
    if id in IdsOf(p.moved) {
      BodiesAfter(f, f', p);
      NewInLoop(f.graph, f'.graph, p.outside, p.header, p.preheader, h);
      var m :| m in p.moved && m.Op? && m.id == id;
      var j :| 0 <= j < |p.moved| && p.moved[j] == m;
      assert DefinedAt(f', id, p.preheader, j);
    } else {
      DefinitionStays(f, f', p, h, id);
    }
  }

  /** The moved operations of an inner loop. */
  ghost function PartOf(f: Func, h: Block, moved: seq<Instr>): seq<Instr> {
    if moved == [] then []
    else
      var last := moved[|moved| - 1];
      PartOf(f, h, moved[..|moved| - 1]) + if OfLoop(f, h, last) then [last] else []
  }

  lemma {:induction false} PartIs(f: Func, h: Block, moved: seq<Instr>)
    ensures forall i :: i in PartOf(f, h, moved) <==> i in moved && OfLoop(f, h, i)
    decreases |moved|
  {
    hide OfLoop;
    if moved != [] {
      var init, last := moved[..|moved| - 1], moved[|moved| - 1];
      PartIs(f, h, init);
      assert moved == init + [last];
    }
  }

  /** What is moved out of a loop can be moved out of each loop inside that it is in. */
  lemma {:induction false} PartChain(f: Func, p: Plan, impure: bool, h: Block, n: nat)
    requires IdsApart(f) && LoopGraph(f.graph) && MovedOk(f, p) && AllMovable(impure, p.moved) && n <= |p.moved| && (h == p.header || !InLoop(f.graph, h, p.header))
    ensures Chain(f, impure, h, PartOf(f, h, p.moved[..n]))
    decreases n
  {
    hide InLoop, LoopGraph, OperandsReady, OfLoop, Movable, IdsApart;
    if n > 0 {
      PartChain(f, p, impure, h, n - 1);
      var s, m := p.moved[..n], p.moved[n - 1];
      assert s[..n - 1] == p.moved[..n - 1] && s[n - 1] == m;
      var part := PartOf(f, h, p.moved[..n - 1]);
      if OfLoop(f, h, m) {
        PartNext(f, p, h, n - 1);
        ChainMore(f, impure, h, part, m);
      } else {
        assert part + [] == part;
      }
    }
  }

  lemma ChainMore(f: Func, impure: bool, h: Block, chain: seq<Instr>, instr: Instr)
    requires Chain(f, impure, h, chain) && instr.Op? && Movable(impure, instr) && OfLoop(f, h, instr) && OperandsReady(f, h, chain, instr)
    ensures Chain(f, impure, h, chain + [instr])
  {
    hide OperandsReady, OfLoop, Movable;
    var more := chain + [instr];
    forall k | 0 <= k < |more| ensures more[k].Op? && Movable(impure, more[k]) && OfLoop(f, h, more[k]) && OperandsReady(f, h, more[..k], more[k]) {
      assert more[..k] == chain[..k];
      assert chain[..|chain|] == chain;
    }
  }

  lemma PartNext(f: Func, p: Plan, h: Block, k: nat)
    requires IdsApart(f) && LoopGraph(f.graph) && MovedOk(f, p) && k < |p.moved| && OfLoop(f, h, p.moved[k]) && (h == p.header || !InLoop(f.graph, h, p.header))
    ensures OperandsReady(f, h, PartOf(f, h, p.moved[..k]), p.moved[k])
  {
    hide InLoop, LoopGraph, IdsApart;
    Inner(f, p, h, k);
    PartIs(f, h, p.moved[..k]);
    assert OperandsReady(f, p.header, p.moved[..k], p.moved[k]);
    forall v | v in Uses(p.moved[k]) && v.Res? && DefinedInLoop(f, h, v.id) ensures v.id in IdsOf(PartOf(f, h, p.moved[..k])) {
      var q := MovedOperand(f, p, h, k, v.id);
      OperandIs(f, p, h, k, q, v.id);
    }
  }

  lemma OperandIs(f: Func, p: Plan, h: Block, k: nat, q: nat, id: Id)
    requires q < k < |p.moved| && OfLoop(f, h, p.moved[q]) && p.moved[q].Op? && p.moved[q].id == id
    ensures id in IdsOf(PartOf(f, h, p.moved[..k]))
  {
    hide OfLoop;
    PartIs(f, h, p.moved[..k]);
    assert p.moved[q] in p.moved[..k];
    assert p.moved[q] in PartOf(f, h, p.moved[..k]);
  }

  /** A loop that shares a moved operation and is not around is inside. */
  lemma Inner(f: Func, p: Plan, h: Block, k: nat)
    requires IdsApart(f) && LoopGraph(f.graph) && MovedOk(f, p) && k < |p.moved| && OfLoop(f, h, p.moved[k]) && (h == p.header || !InLoop(f.graph, h, p.header))
    ensures forall b | InLoop(f.graph, h, b) :: InLoop(f.graph, p.header, b)
  {
    hide InLoop, LoopGraph, OperandsReady;
    var id := p.moved[k].id;
    assert OfLoop(f, p.header, p.moved[k]);
    var b, i :| InLoop(f.graph, h, b) && b in f.graph.blocks && b in f.body && 0 <= i < |f.body[b]| && f.body[b][i] == p.moved[k];
    var c, j :| InLoop(f.graph, p.header, c) && c in f.graph.blocks && c in f.body && 0 <= j < |f.body[c]| && f.body[c][j] == p.moved[k];
    assert DefinedAt(f, id, b, i) && DefinedAt(f, id, c, j);
    if h != p.header {
      InsideOf(f.graph, h, p.header, b);
    }
  }

  /** What can be moved out of a loop now could be moved out of it before. */
  lemma FindableBefore(f: Func, f': Func, p: Plan, impure: bool, h: Block, instr: Instr)
    requires Preheadered(f, f', p) && LoopGraph(f'.graph) && AllMovable(impure, p.moved) && h != p.preheader && Findable(f', impure, h, instr)
    ensures Findable(f, impure, h, instr)
  {
    hide Preheadered, InLoop, LoopGraph, Chain, IdsApart;
    var chain :| Chain(f', impure, h, chain) && instr in chain;
    if h != p.header && InLoop(f.graph, h, p.header) {
      OuterChain(f, f', p, impure, h, chain);
    } else {
      InnerChain(f, f', p, impure, h, chain, |chain|);
      assert chain[..|chain|] == chain && instr in PartOf(f, h, p.moved) + chain;
    }
  }

  lemma OuterChain(f: Func, f': Func, p: Plan, impure: bool, h: Block, chain: seq<Instr>)
    requires Preheadered(f, f', p) && LoopGraph(f'.graph) && h != p.header && h != p.preheader && InLoop(f.graph, h, p.header) && Chain(f', impure, h, chain)
    ensures Chain(f, impure, h, chain)
  {
    hide Preheadered, InLoop, LoopGraph, OfLoop, Movable, IdsOf, DefinedInLoop;
    forall k | 0 <= k < |chain| ensures OfLoop(f, h, chain[k]) && OperandsReady(f, h, chain[..k], chain[k]) {
      OfLoopBefore(f, f', p, h, chain[k]);
      forall v | v in Uses(chain[k]) && v.Res? && DefinedInLoop(f, h, v.id) ensures v.id in IdsOf(chain[..k]) {
        OuterDefines(f, f', p, h, v.id);
      }
    }
  }

  lemma {:induction false} InnerChain(f: Func, f': Func, p: Plan, impure: bool, h: Block, chain: seq<Instr>, n: nat)
    requires Preheadered(f, f', p) && LoopGraph(f'.graph) && AllMovable(impure, p.moved) && h != p.preheader && (h == p.header || !InLoop(f.graph, h, p.header))
    requires Chain(f', impure, h, chain) && n <= |chain|
    ensures Chain(f, impure, h, PartOf(f, h, p.moved) + chain[..n])
    decreases n
  {
    hide Preheadered, InLoop, LoopGraph, OfLoop, Movable, OperandsReady;
    var part := PartOf(f, h, p.moved);
    if n == 0 {
      FormParts(f, f', p);
      PartChain(f, p, impure, h, |p.moved|);
      assert p.moved[..|p.moved|] == p.moved && part + chain[..0] == part;
    } else {
      InnerChain(f, f', p, impure, h, chain, n - 1);
      OfLoopBefore(f, f', p, h, chain[n - 1]);
      InnerReady(f, f', p, h, chain[..n - 1], chain[n - 1]);
      ChainMore(f, impure, h, part + chain[..n - 1], chain[n - 1]);
      assert part + chain[..n] == part + chain[..n - 1] + [chain[n - 1]];
    }
  }

  lemma FormParts(f: Func, f': Func, p: Plan)
    requires Preheadered(f, f', p)
    ensures IdsApart(f) && LoopGraph(f.graph) && MovedOk(f, p)
  {
    hide Hoisted, OnlyEntry, EdgeSplit, BodyReady, TermReady, EdgeReady, MovedOk, LoopGraph, EnteredOnce, ValuesOk, WellFormed, IdsApart;
    PlanParts(f, p);
  }

  lemma InnerReady(f: Func, f': Func, p: Plan, h: Block, before: seq<Instr>, instr: Instr)
    requires Preheadered(f, f', p) && h != p.preheader && OperandsReady(f', h, before, instr)
    ensures OperandsReady(f, h, PartOf(f, h, p.moved) + before, instr)
  {
    hide Preheadered, InLoop, LoopGraph, DefinedInLoop, IdsOf;
    var part := PartOf(f, h, p.moved);
    forall v | v in Uses(instr) && v.Res? && DefinedInLoop(f, h, v.id) ensures v.id in IdsOf(part + before) {
      IdsJoined(part, before);
      if v.id in IdsOf(p.moved) {
        MovedInPart(f, f', p, h, v.id);
      } else {
        DefinitionStays(f, f', p, h, v.id);
      }
    }
  }

  lemma IdsJoined(a: seq<Instr>, b: seq<Instr>)
    ensures forall id :: id in IdsOf(a + b) <==> id in IdsOf(a) || id in IdsOf(b)
  {
    assert forall i :: i in a + b <==> i in a || i in b;
  }

  /** A moved value that the loop defined is in its part. */
  lemma MovedInPart(f: Func, f': Func, p: Plan, h: Block, id: Id)
    requires Preheadered(f, f', p) && id in IdsOf(p.moved) && DefinedInLoop(f, h, id)
    ensures id in IdsOf(PartOf(f, h, p.moved))
  {
    hide Preheadered, InLoop, LoopGraph, OperandsReady;
    FormParts(f, f', p);
    PartIs(f, h, p.moved);
    var m :| m in p.moved && m.Op? && m.id == id;
    var k :| 0 <= k < |p.moved| && p.moved[k] == m;
    assert OfLoop(f, p.header, p.moved[k]);
    var c, j :| InLoop(f.graph, p.header, c) && c in f.graph.blocks && c in f.body && 0 <= j < |f.body[c]| && f.body[c][j] == m;
    var b, i :| InLoop(f.graph, h, b) && (DefinedAt(f, id, b, i) || PhiAt(f, id, b, i));
    assert DefinedAt(f, id, c, j);
    assert b == c && i == j && DefinedAt(f, id, b, i);
    assert OfLoop(f, h, m) && m in PartOf(f, h, p.moved);
  }

  /** Loops that were safe are safe after one of them has been rewritten. */
  lemma SafeKept(view: View, f: Func, f': Func, p: Plan, impure: bool)
    requires Preheadered(f, f', p) && LoopGraph(f'.graph) && AllMovable(impure, p.moved) && LoopsSafe(view, f, impure)
    ensures LoopsSafe(view, f', impure)
  {
    hide Preheadered, LoopGraph, IsHeader, QuietLoop, Findable, IsPureOp;
    SplitParts(f, f', p);
    NewNoHeader(f.graph, f'.graph, p.outside, p.header, p.preheader);
    forall h | IsHeader(f'.graph, h) ensures LoopSafe(view, f', impure, h) {
      HeaderKept(f.graph, f'.graph, p.outside, p.header, p.preheader, h);
      assert LoopSafe(view, f, impure, h);
      if QuietLoop(view, f, h) {
        QuietKept(view, f, f', p, h);
      } else {
        forall i | Findable(f', impure, h, i) && i.Op? ensures IsPureOp(i.op) {
          FindableBefore(f, f', p, impure, h, i);
        }
      }
    }
  }

  /** Loops without pointer stores and without calls that can be seen are safe, and so are those without loads and without calls
      that can be moved. */
  lemma SafeByText(pure: Marking.Pures, f: Func, impure: bool)
    requires forall h | IsHeader(f.graph, h) ::
      || (forall b, i | InLoop(f.graph, h, b) && b in f.graph.blocks && b in f.body && 0 <= i < |f.body[b]| && f.body[b][i].Op? ::
            f.body[b][i].op != StorePtr && (f.body[b][i].op.Call? ==> f.body[b][i].op.callee in pure))
      || (forall b, i | InLoop(f.graph, h, b) && b in f.graph.blocks && b in f.body && 0 <= i < |f.body[b]| && f.body[b][i].Op? ::
            f.body[b][i].op != LoadPtr && (f.body[b][i].op.Call? ==> impure))
    ensures LoopsSafe(Some(pure), f, impure)
  {
    hide IsHeader, InLoop, OperandsReady;
    forall h | IsHeader(f.graph, h) ensures LoopSafe(Some(pure), f, impure, h) {
      if i :| Findable(f, impure, h, i) && i.Op? && !IsPureOp(i.op) {
        var chain :| Chain(f, impure, h, chain) && i in chain;
        var b, k :| InLoop(f.graph, h, b) && b in f.graph.blocks && b in f.body && 0 <= k < |f.body[b]| && f.body[b][k] == i;
        assert QuietLoop(Some(pure), f, h);
      }
    }
  }

  // ----- what the motion changes -----

  /** Stores and calls with effects are where they were. If loads and calls are moved out of quiet loops only, nothing that a run does
      has changed, and the loops are still safe. */
  ghost predicate KeepsMeaning(impure: bool, f: Func, f': Func) {
    && EffectsStay(impure, f, f')
    && forall view: View | LoopsSafe(view, f, impure) :: Lags(view, f, f') && LoopsSafe(view, f', impure)
  }

  lemma LagsSame(view: View, f: Func)
    ensures Lags(view, f, f)
  {
    hide Run, Honest, Alike;
    forall sem: Sem, args: seq<int>, n: nat | Honest(view, sem) ensures LagsAt(view, f, f, sem, args, n) {
      var k: nat := n;
      AlikeRefl(view, Run(f, sem, args, n).regs.events);
      assert k >= n && SameLook(view, Run(f, sem, args, n), Run(f, sem, args, k));
    }
  }

  lemma LagsTransitive(view: View, f: Func, g: Func, h: Func)
    requires Lags(view, f, g) && Lags(view, g, h)
    ensures Lags(view, f, h)
  {
    hide Run, Honest, SameLook;
    forall sem: Sem, args: seq<int>, n: nat | Honest(view, sem) ensures LagsAt(view, f, h, sem, args, n) {
      assert LagsAt(view, f, g, sem, args, n);
      var k: nat :| k >= n && SameLook(view, Run(f, sem, args, n), Run(g, sem, args, k));
      assert LagsAt(view, g, h, sem, args, k);
      var m: nat :| m >= k && SameLook(view, Run(g, sem, args, k), Run(h, sem, args, m));
      LookTransitive(view, Run(f, sem, args, n), Run(g, sem, args, k), Run(h, sem, args, m));
    }
  }

  lemma LookTransitive(view: View, a: Machine, b: Machine, c: Machine)
    requires SameLook(view, a, b) && SameLook(view, b, c)
    ensures SameLook(view, a, c)
  {
    hide Alike;
    AlikeTransitive(view, a.regs.events, b.regs.events, c.regs.events);
  }

  lemma MeaningSame(impure: bool, f: Func)
    requires WellFormedFunc(f)
    ensures KeepsMeaning(impure, f, f)
  {
    hide LoopsSafe, Lags, WellFormedFunc, EffectsStay;
    EffectsSame(impure, f);
    forall view: View | LoopsSafe(view, f, impure) ensures Lags(view, f, f) {
      LagsSame(view, f);
    }
  }

  lemma MeaningTransitive(impure: bool, f: Func, g: Func, h: Func)
    requires KeepsMeaning(impure, f, g) && KeepsMeaning(impure, g, h)
    ensures KeepsMeaning(impure, f, h)
  {
    hide LoopsSafe, Lags, EffectsStay;
    EffectsTransitive(impure, f, g, h);
    forall view: View | LoopsSafe(view, f, impure) ensures Lags(view, f, h) && LoopsSafe(view, h, impure) {
      LagsTransitive(view, f, g, h);
    }
  }

  lemma MeaningEffects(impure: bool, f: Func, f': Func)
    requires KeepsMeaning(impure, f, f')
    ensures EffectsStay(impure, f, f')
  {
    hide LoopsSafe, Lags;
  }

  /** One loop. */
  lemma MeaningMoved(f: Func, f': Func, p: Plan, impure: bool)
    requires Preheadered(f, f', p) && Hoistable(f, p) && Hoisted(f, f', p) && LoopGraph(f'.graph) && AllMovable(impure, p.moved)
    ensures KeepsMeaning(impure, f, f')
  {
    hide Preheadered, Hoistable, Hoisted, LoopGraph, AllMovable, LoopSafe, Lags, IsHeader, EnteredOnce, MovedOk, EffectsStay;
    SplitParts(f, f', p);
    FormParts(f, f', p);
    EffectsMoved(f, f', p, impure);
    forall view: View | LoopsSafe(view, f, impure) ensures Lags(view, f, f') && LoopsSafe(view, f', impure) {
      PlanQuiet(view, f, impure, p);
      HoistedLags(view, f, f', p);
      SafeKept(view, f, f', p, impure);
    }
  }
}
