/** What renaming computes, independently of the order in which it is computed,
    and why the renamed function refines the function in memory form. */
module Renaming {
  import opened Common
  import opened Cfg
  import opened IdomTree
  import opened DominatorAnalysis
  import opened Ir
  import opened Ssa

  /** The value on top of each slot's stack. */
  type Tops = map<Slot, Val>

  /** The value that replaces each promoted load. */
  type Subst = map<Id, Val>

  /** The outcome of renaming: the slot of each phi, the replacement of each load,
      and the stack tops where a block begins (before its phis) and ends. */
  datatype Naming = Naming(slotOf: map<Id, Slot>, subst: Subst, start: map<Block, Tops>, end: map<Block, Tops>)

  function Apply(s: Subst, v: Val): Val {
    if v.Res? && v.id in s then s[v.id] else v
  }

  function ApplyAll(s: Subst, vs: seq<Val>): (r: seq<Val>)
    ensures |r| == |vs| && forall i | 0 <= i < |vs| :: r[i] == Apply(s, vs[i])
  {
    seq(|vs|, i requires 0 <= i < |vs| => Apply(s, vs[i]))
  }

  function ApplyInstr(s: Subst, instr: Instr): Instr {
    match instr
    case Load(_, _) => instr
    case Store(v, x) => Store(Apply(s, v), x)
    case Op(id, op, vs) => Op(id, op, ApplyAll(s, vs))
  }

  function ApplyTerm(s: Subst, t: Term): Term {
    match t
    case Br(_) => t
    case CondBr(v, b, c) => CondBr(Apply(s, v), b, c)
    case Ret(v) => if v.Some? then Ret(Some(Apply(s, v.value))) else t
  }

  /** The instructions with loads replaced in operands and stores gone. */
  function FinalBody(s: Subst, instrs: seq<Instr>): seq<Instr> {
    if instrs == [] then []
    else
      var init := FinalBody(s, instrs[..|instrs| - 1]);
      var last := instrs[|instrs| - 1];
      if last.Store? then init else init + [ApplyInstr(s, last)]
  }

  function PhiTops(slotOf: map<Id, Slot>, t: Tops, phis: seq<Phi>): Tops {
    if phis == [] then t
    else
      var init := PhiTops(slotOf, t, phis[..|phis| - 1]);
      var phi := phis[|phis| - 1];
      if phi.id in slotOf then init[slotOf[phi.id] := Res(phi.id)] else init
  }

  function BodyTops(s: Subst, t: Tops, instrs: seq<Instr>): Tops {
    if instrs == [] then t
    else
      var init := BodyTops(s, t, instrs[..|instrs| - 1]);
      var last := instrs[|instrs| - 1];
      if last.Store? then init[last.slot := Apply(s, last.rval)] else init
  }

  /** The stack tops before instruction i of b. */
  ghost function TopsAt(f: Func, nm: Naming, b: Block, i: nat): Tops
    requires b in f.phis && b in f.body && b in nm.start && i <= |f.body[b]|
  {
    BodyTops(nm.subst, PhiTops(nm.slotOf, nm.start[b], f.phis[b]), f.body[b][..i])
  }

  /** Load i of b is replaced by the top of its slot's stack, if there is one. */
  ghost predicate LoadNamed(f: Func, nm: Naming, b: Block, i: nat)
    requires b in f.phis && b in f.body && b in nm.start && i < |f.body[b]|
  {
    f.body[b][i].Load? ==>
      var t := TopsAt(f, nm, b, i);
      var id, x := f.body[b][i].id, f.body[b][i].slot;
      if x in t then id in nm.subst && nm.subst[id] == t[x] else id !in nm.subst
  }

  ghost predicate BlockNamed(f: Func, nm: Naming, b: Block) {
    && b in f.phis && b in f.body && b in nm.start && b in nm.end
    && nm.end[b] == TopsAt(f, nm, b, |f.body[b]|)
    && forall i | 0 <= i < |f.body[b]| :: LoadNamed(f, nm, b, i)
  }

  ghost predicate LoadAt(f: Func, id: Id, b: Block, i: int) {
    b in f.graph.blocks && b in f.body && 0 <= i < |f.body[b]| && f.body[b][i].Load? && f.body[b][i].id == id
  }

  /** Stacks are inherited along the dominator tree, and only loads are replaced. */
  ghost predicate Named(f: Func, m: IdomMap, nm: Naming) {
    && (forall b | b in f.graph.blocks && Reachable(f.graph, b) :: BlockNamed(f, nm, b))
    && f.graph.entry in nm.start && nm.start[f.graph.entry] == map[]
    && (forall b | b in f.graph.blocks && Reachable(f.graph, b) && b != f.graph.entry ::
          b in nm.start && b in m && m[b].Some? && m[b].value in nm.end && nm.start[b] == nm.end[m[b].value])
    && (forall id | id in nm.subst :: exists b, i :: LoadAt(f, id, b, i))
  }

  /** The pairs of a phi: what is on top of its slot's stack at the end of each predecessor. */
  ghost predicate PairsMatch(f: Func, nm: Naming, b: Block, phi: Phi) {
    phi.id in nm.slotOf && forall p | Edge(f.graph, p, b) && Reachable(f.graph, p) ::
      p in nm.end && Incoming(phi.pairs, p) ==
                     if nm.slotOf[phi.id] in nm.end[p] then Some(nm.end[p][nm.slotOf[phi.id]]) else None
  }

  /** f' is f with the naming carried out in all reachable blocks. */
  ghost predicate Renamed(f: Func, f': Func, nm: Naming) {
    && f'.graph == f.graph
    && forall b | b in f.graph.blocks && Reachable(f.graph, b) ::
      && b in f.phis && b in f.body && b in f.term && b in f'.phis && b in f'.body && b in f'.term
      && f'.body[b] == FinalBody(nm.subst, f.body[b])
      && f'.term[b] == ApplyTerm(nm.subst, f.term[b])
      && |f'.phis[b]| == |f.phis[b]|
      && forall k | 0 <= k < |f.phis[b]| :: f'.phis[b][k].id == f.phis[b][k].id && PairsMatch(f, nm, b, f'.phis[b][k])
  }

  // ----- phi placement -----

  ghost predicate StoresTo(f: Func, b: Block, x: Slot) {
    b in f.graph.blocks && b in f.body && exists i :: 0 <= i < |f.body[b]| && f.body[b][i].Store? && f.body[b][i].slot == x
  }

  ghost predicate HasPhi(f: Func, slotOf: map<Id, Slot>, b: Block, x: Slot) {
    b in f.graph.blocks && b in f.phis &&
    exists k :: 0 <= k < |f.phis[b]| && f.phis[b][k].id in slotOf && slotOf[f.phis[b][k].id] == x
  }

  /** The frontier of every block that stores to or has a phi for a slot has phis for it. */
  ghost predicate PhisClosed(f: Func, slotOf: map<Id, Slot>) {
    forall c, b, x | (StoresTo(f, c, x) || HasPhi(f, slotOf, c, x)) && Reachable(f.graph, c) && InFrontier(f.graph, c, b) ::
      HasPhi(f, slotOf, b, x)
  }

  /** The input of renaming: phis without pairs, one per slot, with identities of their own. */
  ghost predicate PhisFresh(f: Func, slotOf: map<Id, Slot>) {
    && (forall id, b, i | PhiAt(f, id, b, i) :: f.phis[b][i].pairs == [] && id in slotOf)
    && (forall id, b, i, c, j | PhiAt(f, id, b, i) && PhiAt(f, id, c, j) :: b == c && i == j)
    && (forall id, b, i, c, j | PhiAt(f, id, b, i) :: !DefinedAt(f, id, c, j))
    && (forall b, i, j | b in f.graph.blocks && b in f.phis && 0 <= i < |f.phis[b]| && 0 <= j < |f.phis[b]| && i != j
          && f.phis[b][i].id in slotOf && f.phis[b][j].id in slotOf ::
          slotOf[f.phis[b][i].id] != slotOf[f.phis[b][j].id])
  }

  /** Everything that the correctness of a renaming rests on. */
  ghost predicate RenamingInput(f: Func, m: IdomMap, slotOf: map<Id, Slot>) {
    && WellFormedFunc(f) && UniqueIds(f) && UsesDominated(f)
    && IdomCorrect(f.graph, m)
    && (forall u :: !Edge(f.graph, u, f.graph.entry))
    && PhisFresh(f, slotOf) && PhisClosed(f, slotOf)
  }

  // ----- scoping: the names in use are defined on every path -----

  lemma InScopeLater(f: Func, v: Val, b: Block, i: int, c: Block, j: int)
    requires InScope(f, v, b, i)
    requires (b == c && i <= j) || StrictlyDominates(f.graph, b, c)
    requires Reachable(f.graph, c)
    ensures InScope(f, v, c, j)
  {
    if v.Res? && Available(f, v.id, b, i) {
      var d, k :| DefinedAt(f, v.id, d, k) && ((d == b && k < i) || StrictlyDominates(f.graph, d, b));
      StrictlyDominatesTransitive(f.graph, d, b, c);
      assert DefinedAt(f, v.id, d, k) && ((d == c && k < j) || StrictlyDominates(f.graph, d, c));
    } else if v.Res? {
      var d, k :| PhiAt(f, v.id, d, k) && Dominates(f.graph, d, b);
      DominatesReflexive(f.graph, b);
      DominatesTransitive(f.graph, d, b, c);
      assert PhiAt(f, v.id, d, k) && Dominates(f.graph, d, c);
    }
  }

  lemma StrictlyDominatesTransitive(g: Graph, a: Block, b: Block, c: Block)
    requires a == b || StrictlyDominates(g, a, b)
    requires b == c || StrictlyDominates(g, b, c)
    requires Reachable(g, c)
    ensures a == c || StrictlyDominates(g, a, c)
    ensures a == c ==> a == b == c
  {
    DominatesReflexive(g, b);
    DominatesTransitive(g, a, b, c);
    if a == c && a != b {
      DominatesAntisymmetric(g, b, c);
    }
  }

  /** Where the tops before instruction i of b come from. */
  lemma PhiTopsCases(slotOf: map<Id, Slot>, t: Tops, phis: seq<Phi>, x: Slot)
    requires x in PhiTops(slotOf, t, phis)
    ensures (x in t && PhiTops(slotOf, t, phis)[x] == t[x])
         || (exists k :: 0 <= k < |phis| && PhiTops(slotOf, t, phis)[x] == Res(phis[k].id))
  {
    if phis != [] {
      var last := |phis| - 1;
      if x in PhiTops(slotOf, t, phis[..last]) {
        PhiTopsCases(slotOf, t, phis[..last], x);
      }
      assert PhiTops(slotOf, t, phis)[x] == Res(phis[last].id) ||
             (x in PhiTops(slotOf, t, phis[..last]) && PhiTops(slotOf, t, phis)[x] == PhiTops(slotOf, t, phis[..last])[x]);
    }
  }

  ghost function Depth(g: Graph, b: Block): nat {
    |DominatorSet(g, b)|
  }

  lemma DepthDecreases(g: Graph, a: Block, b: Block)
    requires WellFormed(g) && Reachable(g, b) && StrictlyDominates(g, a, b)
    ensures Depth(g, a) < Depth(g, b) && Reachable(g, a) && a in g.blocks
  {
    DominatorReachable(g, a, b);
    ReachableInBlocks(g, a);
    ReachableInBlocks(g, b);
    forall d | d in DominatorSet(g, a) ensures d in DominatorSet(g, b) {
      DominatesTransitive(g, d, a, b);
    }
    if Dominates(g, b, a) {
      DominatesAntisymmetric(g, a, b);
    }
    DominatesReflexive(g, b);
    assert b in DominatorSet(g, b) && b !in DominatorSet(g, a);
    ProperSubsetSmaller(DominatorSet(g, a), DominatorSet(g, b));
  }

  /** Stack tops mention only names that are defined on every path to the point. */
  lemma {:induction false} TopsInScope(f: Func, m: IdomMap, nm: Naming, b: Block, i: nat, x: Slot)
    requires RenamingInput(f, m, nm.slotOf) && Named(f, m, nm)
    requires b in f.graph.blocks && Reachable(f.graph, b) && i <= |f.body[b]|
    requires x in TopsAt(f, nm, b, i)
    ensures InScope(f, TopsAt(f, nm, b, i)[x], b, i)
    decreases Depth(f.graph, b), i, 1
  {
    hide UniqueIds, PhisFresh, PhisClosed, IdomCorrect, WellFormed, Dominates, StrictlyDominates;
    assert BlockNamed(f, nm, b);
    if i == 0 {
      assert f.body[b][..0] == [];
      PhiTopsCases(nm.slotOf, nm.start[b], f.phis[b], x);
      if k :| 0 <= k < |f.phis[b]| && TopsAt(f, nm, b, 0)[x] == Res(f.phis[b][k].id) {
        assert PhiAt(f, f.phis[b][k].id, b, k);
        DominatesReflexive(f.graph, b);
      } else {
        StartInScope(f, m, nm, b, x);
        StartScopeWeakens(f, nm.start[b][x], b);
      }
    } else {
      var last := f.body[b][i - 1];
      assert f.body[b][..i][..i - 1] == f.body[b][..i - 1];
      if last.Store? && last.slot == x {
        assert AllAvailable(f, Uses(last), b, i - 1);
        assert last.rval in Uses(last);
        ReplacedInScope(f, m, nm, last.rval, b, i - 1);
        InScopeLater(f, Apply(nm.subst, last.rval), b, i - 1, b, i);
      } else {
        TopsInScope(f, m, nm, b, i - 1, x);
        InScopeLater(f, TopsAt(f, nm, b, i - 1)[x], b, i - 1, b, i);
      }
    }
  }

  /** In scope without b's own phis. */
  ghost predicate InScopeBefore(f: Func, v: Val, b: Block) {
    v.Res? ==> (Available(f, v.id, b, 0) || exists c, k :: PhiAt(f, v.id, c, k) && StrictlyDominates(f.graph, c, b))
  }

  lemma StartScopeWeakens(f: Func, v: Val, b: Block)
    requires InScopeBefore(f, v, b)
    ensures InScope(f, v, b, 0)
  {
    if v.Res? && !Available(f, v.id, b, 0) {
      var c, k :| PhiAt(f, v.id, c, k) && StrictlyDominates(f.graph, c, b);
      assert PhiAt(f, v.id, c, k) && Dominates(f.graph, c, b);
    }
  }

  lemma ScopeBelow(f: Func, v: Val, a: Block, i: int, b: Block)
    requires InScope(f, v, a, i) && StrictlyDominates(f.graph, a, b) && Reachable(f.graph, b)
    ensures InScopeBefore(f, v, b)
  {
    if v.Res? && Available(f, v.id, a, i) {
      var d, k :| DefinedAt(f, v.id, d, k) && ((d == a && k < i) || StrictlyDominates(f.graph, d, a));
      StrictlyDominatesTransitive(f.graph, d, a, b);
      assert DefinedAt(f, v.id, d, k) && ((d == b && k < 0) || StrictlyDominates(f.graph, d, b));
    } else if v.Res? {
      var d, k :| PhiAt(f, v.id, d, k) && Dominates(f.graph, d, a);
      StrictlyDominatesTransitive(f.graph, d, a, b);
      assert PhiAt(f, v.id, d, k) && StrictlyDominates(f.graph, d, b);
    }
  }

  lemma StartInScope(f: Func, m: IdomMap, nm: Naming, b: Block, x: Slot)
    requires RenamingInput(f, m, nm.slotOf) && Named(f, m, nm)
    requires b in f.graph.blocks && Reachable(f.graph, b) && b in nm.start && x in nm.start[b]
    ensures InScopeBefore(f, nm.start[b][x], b)
    decreases Depth(f.graph, b), 0, 0
  {
    var a := m[b].value;
    DepthDecreases(f.graph, a, b);
    assert BlockNamed(f, nm, a);
    TopsInScope(f, m, nm, a, |f.body[a]|, x);
    ScopeBelow(f, nm.end[a][x], a, |f.body[a]|, b);
  }

  /** An available operand stays in scope when loads are replaced. */
  lemma {:induction false} ReplacedInScope(f: Func, m: IdomMap, nm: Naming, v: Val, b: Block, i: nat)
    requires RenamingInput(f, m, nm.slotOf) && Named(f, m, nm)
    requires b in f.graph.blocks && Reachable(f.graph, b) && i <= |f.body[b]|
    requires v.Res? ==> Available(f, v.id, b, i)
    ensures InScope(f, Apply(nm.subst, v), b, i)
    decreases Depth(f.graph, b), i, 2
  {
    if v.Res? && v.id in nm.subst {
      var c, j :| DefinedAt(f, v.id, c, j) && ((c == b && j < i) || StrictlyDominates(f.graph, c, b));
      var c', j' :| LoadAt(f, v.id, c', j');
      assert DefinedAt(f, v.id, c', j');
      if c != b {
        DepthDecreases(f.graph, c, b);
      }
      assert BlockNamed(f, nm, c) && LoadNamed(f, nm, c, j);
      TopsInScope(f, m, nm, c, j, f.body[c][j].slot);
      InScopeLater(f, nm.subst[v.id], c, j, b, i);
    }
  }
}
