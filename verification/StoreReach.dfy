/** Which loads renaming replaces: exactly those that some store can reach. */
module StoreReach {
  import opened Common
  import opened Cfg
  import opened IdomTree
  import opened DominatorAnalysis
  import opened Ir
  import opened Renaming
  import opened PhiPlacement

  /** A walk of at least one edge from a reachable store of x to b. */
  ghost predicate StoreWalk(f: Func, x: Slot, p: seq<Block>, b: Block) {
    |p| >= 2 && WalkTo(f.graph, p, b) && StoresTo(f, p[0], x) && Reachable(f.graph, p[0])
  }

  /** Some run of blocks may execute a store to x before it comes to instruction i of b. */
  ghost predicate StoreReaches(f: Func, x: Slot, b: Block, i: int) {
    || (b in f.body && exists j :: 0 <= j < i && j < |f.body[b]| && f.body[b][j].Store? && f.body[b][j].slot == x)
    || (exists p :: StoreWalk(f, x, p, b))
  }

  lemma WalkJoin(g: Graph, p: seq<Block>, q: seq<Block>, b: Block)
    requires |p| > 0 && |q| > 0 && WalkTo(g, p, q[0]) && WalkTo(g, q, b)
    ensures WalkTo(g, p + q[1..], b)
  {
    var r := p + q[1..];
    forall i | 0 <= i < |r| - 1 ensures Edge(g, r[i], r[i + 1]) {
      if i < |p| - 1 {
        assert Edge(g, p[i], p[i + 1]);
      } else {
        var j := i - |p| + 1;
        assert r[i] == q[j] && r[i + 1] == q[j + 1];
        assert Edge(g, q[j], q[j + 1]);
      }
    }
  }

  /** There is a walk from a dominator of a reachable block to the block. */
  lemma DominatorWalk(g: Graph, a: Block, b: Block) returns (p: seq<Block>)
    requires Reachable(g, b) && Dominates(g, a, b)
    ensures |p| > 0 && p[0] == a && WalkTo(g, p, b)
  {
    var q :| PathTo(g, q, b);
    var i :| 0 <= i < |q| && q[i] == a;
    p := q[i..];
    forall k | 0 <= k < |p| - 1 ensures Edge(g, p[k], p[k + 1]) {
      assert Edge(g, q[i + k], q[i + k + 1]);
    }
  }

  lemma FrontierWalk(g: Graph, c: Block, d: Block) returns (p: seq<Block>)
    requires WellFormed(g) && ReachableClosedUnderPred(g) && InFrontier(g, c, d)
    ensures |p| >= 2 && p[0] == c && WalkTo(g, p, d)
  {
    var u :| u in g.pre[d] && Dominates(g, c, u) && !StrictlyDominates(g, c, d);
    ReachableInBlocks(g, d);
    assert Edge(g, u, d);
    var q := DominatorWalk(g, c, u);
    WalkJoin(g, q, [u, d], d);
    p := q + [u, d][1..];
  }

  lemma {:induction false} ChainWalk(f: Func, x: Slot, s: seq<Block>, b: Block) returns (p: seq<Block>)
    requires WellFormed(f.graph) && ReachableClosedUnderPred(f.graph) && JoinChain(f, x, s, b)
    ensures StoreWalk(f, x, p, b)
    decreases |s|
  {
    var c := s[|s| - 2];
    assert InFrontier(f.graph, c, s[|s| - 2 + 1]);
    var q := FrontierWalk(f.graph, c, b);
    if |s| == 2 {
      p := q;
    } else {
      var t := s[..|s| - 1];
      forall i | 0 <= i < |t| - 1 ensures InFrontier(f.graph, t[i], t[i + 1]) {
        assert InFrontier(f.graph, s[i], s[i + 1]);
      }
      var r := ChainWalk(f, x, t, c);
      WalkJoin(f.graph, r, q, b);
      p := r + q[1..];
    }
  }

  // ----- what is in the tops stays in them -----

  lemma {:induction false} PhiTopsKeep(slotOf: map<Id, Slot>, t: Tops, phis: seq<Phi>, x: Slot)
    ensures x in PhiTops(slotOf, t, phis) <==>
            x in t || exists k :: 0 <= k < |phis| && phis[k].id in slotOf && slotOf[phis[k].id] == x
    decreases |phis|
  {
    if phis != [] {
      var init := phis[..|phis| - 1];
      PhiTopsKeep(slotOf, t, init, x);
      assert forall k | 0 <= k < |init| :: init[k] == phis[k];
    }
  }

  lemma {:induction false} BodyTopsKeep(s: Subst, t: Tops, instrs: seq<Instr>, x: Slot)
    ensures x in BodyTops(s, t, instrs) <==>
            x in t || exists j :: 0 <= j < |instrs| && instrs[j].Store? && instrs[j].slot == x
    decreases |instrs|
  {
    if instrs != [] {
      var init := instrs[..|instrs| - 1];
      BodyTopsKeep(s, t, init, x);
      assert forall j | 0 <= j < |init| :: init[j] == instrs[j];
    }
  }

  lemma TopsMember(f: Func, nm: Naming, b: Block, i: nat, x: Slot)
    requires b in f.graph.blocks && b in f.phis && b in f.body && b in nm.start && i <= |f.body[b]|
    ensures x in TopsAt(f, nm, b, i) <==>
            || x in nm.start[b] || HasPhi(f, nm.slotOf, b, x)
            || exists j :: 0 <= j < i && f.body[b][j].Store? && f.body[b][j].slot == x
  {
    PhiTopsKeep(nm.slotOf, nm.start[b], f.phis[b], x);
    BodyTopsKeep(nm.subst, PhiTops(nm.slotOf, nm.start[b], f.phis[b]), f.body[b][..i], x);
    assert forall j | 0 <= j < i :: f.body[b][..i][j] == f.body[b][j];
  }

  /** The slots that a block writes are on the stacks of all blocks below it. */
  lemma {:induction false} WrittenAbove(f: Func, m: IdomMap, nm: Naming, c: Block, b: Block, x: Slot)
    requires RenamingInput(f, m, nm.slotOf) && Named(f, m, nm)
    requires b in f.graph.blocks && Reachable(f.graph, b) && StrictlyDominates(f.graph, c, b)
    requires Writes(f, nm.slotOf, c, x)
    ensures b in nm.start && x in nm.start[b]
    decreases Depth(f.graph, b)
  {
    hide UniqueIds, UsesDominated, PhisFresh, PhisClosed;
    EntryReachable(f.graph);
    var a := m[b].value;
    assert IsIdom(f.graph, a, b);
    DepthDecreases(f.graph, a, b);
    assert BlockNamed(f, nm, a);
    TopsMember(f, nm, a, |f.body[a]|, x);
    if c != a {
      WrittenAbove(f, m, nm, c, a, x);
    }
  }

  /** If a store reaches a point, its slot's stack is not empty there. */
  lemma StackNotEmpty(f: Func, m: IdomMap, nm: Naming, b: Block, i: nat, x: Slot)
    requires RenamingInput(f, m, nm.slotOf) && Named(f, m, nm)
    requires b in f.graph.blocks && Reachable(f.graph, b) && i <= |f.body[b]| && b in nm.start
    requires StoreReaches(f, x, b, i)
    ensures x in TopsAt(f, nm, b, i)
  {
    hide UniqueIds, UsesDominated, PhisFresh, IdomCorrect;
    TopsMember(f, nm, b, i, x);
    if p :| StoreWalk(f, x, p, b) {
      var u := p[|p| - 2];
      var j := StoreWalkCovered(f, nm.slotOf, x, p[..|p| - 1], u);
      assert Edge(f.graph, u, p[|p| - 2 + 1]);
      DominatorReachable(f.graph, p[j], u);
      if StrictlyDominates(f.graph, p[j], b) {
        WrittenAbove(f, m, nm, p[j], b, x);
      } else {
        assert InFrontier(f.graph, p[j], b);
      }
    }
  }

  ghost predicate PhisAtJoins(f: Func, slotOf: map<Id, Slot>) {
    forall b, x | b in f.graph.blocks && Reachable(f.graph, b) :: HasPhi(f, slotOf, b, x) <==> Joins(f, x, b)
  }

  /** Only reaching stores bring a slot on its stack. */
  lemma {:induction false} StackHasStore(f: Func, m: IdomMap, nm: Naming, b: Block, i: nat, x: Slot)
    requires RenamingInput(f, m, nm.slotOf) && Named(f, m, nm) && PhisAtJoins(f, nm.slotOf) && ReachableClosedUnderPred(f.graph)
    requires b in f.graph.blocks && Reachable(f.graph, b) && i <= |f.body[b]| && b in nm.start
    requires x in TopsAt(f, nm, b, i)
    ensures StoreReaches(f, x, b, i)
    decreases Depth(f.graph, b)
  {
    hide UniqueIds, UsesDominated, PhisFresh, PhisClosed;
    TopsMember(f, nm, b, i, x);
    if HasPhi(f, nm.slotOf, b, x) {
      var s :| JoinChain(f, x, s, b);
      var p := ChainWalk(f, x, s, b);
    } else if x in nm.start[b] {
      var a := m[b].value;
      assert IsIdom(f.graph, a, b);
      DepthDecreases(f.graph, a, b);
      assert BlockNamed(f, nm, a);
      StackHasStore(f, m, nm, a, |f.body[a]|, x);
      var q := DominatorWalk(f.graph, a, b);
      if p :| StoreWalk(f, x, p, a) {
        WalkJoin(f.graph, p, q, b);
        assert StoreWalk(f, x, p + q[1..], b);
      } else {
        assert StoreWalk(f, x, q, b);
      }
    }
  }

  /** Renaming replaces a load if and only if some store reaches it. */
  lemma LoadReplacedIff(f: Func, m: IdomMap, nm: Naming, b: Block, i: nat)
    requires RenamingInput(f, m, nm.slotOf) && Named(f, m, nm) && PhisAtJoins(f, nm.slotOf) && ReachableClosedUnderPred(f.graph)
    requires b in f.graph.blocks && Reachable(f.graph, b) && i < |f.body[b]| && f.body[b][i].Load?
    ensures f.body[b][i].id in nm.subst <==> StoreReaches(f, f.body[b][i].slot, b, i)
  {
    hide RenamingInput, ReachableClosedUnderPred, StoreReaches, PhisAtJoins, TopsAt;
    assert BlockNamed(f, nm, b) && LoadNamed(f, nm, b, i);
    if StoreReaches(f, f.body[b][i].slot, b, i) {
      StackNotEmpty(f, m, nm, b, i, f.body[b][i].slot);
    }
    if f.body[b][i].id in nm.subst {
      StackHasStore(f, m, nm, b, i, f.body[b][i].slot);
    }
  }

  // ----- replaced loads have no uses left -----

  ghost predicate Kept(s: Subst, v: Val) {
    v.Res? ==> v.id !in s
  }

  /** Nothing on a stack is itself a replaced load. */
  lemma {:induction false} TopsKept(f: Func, m: IdomMap, nm: Naming, b: Block, i: nat, x: Slot)
    requires RenamingInput(f, m, nm.slotOf) && Named(f, m, nm)
    requires b in f.graph.blocks && Reachable(f.graph, b) && i <= |f.body[b]|
    requires b in nm.start && x in TopsAt(f, nm, b, i)
    ensures Kept(nm.subst, TopsAt(f, nm, b, i)[x])
    decreases Depth(f.graph, b), i, 1
  {
    hide UniqueIds, PhisClosed, IdomCorrect, WellFormed, Dominates, StrictlyDominates;
    assert BlockNamed(f, nm, b);
    if i == 0 {
      assert f.body[b][..0] == [];
      PhiTopsCases(nm.slotOf, nm.start[b], f.phis[b], x);
      if k :| 0 <= k < |f.phis[b]| && TopsAt(f, nm, b, 0)[x] == Res(f.phis[b][k].id) {
        PhiNotLoad(f, nm, b, k);
      } else {
        var a := m[b].value;
        EntryStart(f, m, nm, b, x);
        DepthDecreases(f.graph, a, b);
        assert BlockNamed(f, nm, a);
        TopsKept(f, m, nm, a, |f.body[a]|, x);
      }
    } else {
      var last := f.body[b][i - 1];
      assert f.body[b][..i][..i - 1] == f.body[b][..i - 1];
      if last.Store? && last.slot == x {
        assert AllAvailable(f, Uses(last), b, i - 1);
        assert last.rval in Uses(last);
        ReplacedKept(f, m, nm, last.rval, b, i - 1);
      } else {
        TopsKept(f, m, nm, b, i - 1, x);
      }
    }
  }

  lemma PhiNotLoad(f: Func, nm: Naming, b: Block, k: nat)
    requires PhisFresh(f, nm.slotOf) && (forall id | id in nm.subst :: exists b, i :: LoadAt(f, id, b, i))
    requires b in f.graph.blocks && b in f.phis && k < |f.phis[b]|
    ensures f.phis[b][k].id !in nm.subst
  {
    var id := f.phis[b][k].id;
    assert PhiAt(f, id, b, k);
    assert forall c, i :: LoadAt(f, id, c, i) ==> DefinedAt(f, id, c, i);
  }

  lemma EntryStart(f: Func, m: IdomMap, nm: Naming, b: Block, x: Slot)
    requires RenamingInput(f, m, nm.slotOf) && Named(f, m, nm)
    requires b in f.graph.blocks && Reachable(f.graph, b) && b in nm.start && x in nm.start[b]
    ensures b in m && m[b].Some? && StrictlyDominates(f.graph, m[b].value, b)
    ensures m[b].value in nm.end && nm.start[b] == nm.end[m[b].value]
  {
  }

  /** An available operand, with loads replaced, is not a replaced load. */
  lemma {:induction false} ReplacedKept(f: Func, m: IdomMap, nm: Naming, v: Val, b: Block, i: nat)
    requires RenamingInput(f, m, nm.slotOf) && Named(f, m, nm)
    requires b in f.graph.blocks && Reachable(f.graph, b) && i <= |f.body[b]|
    requires v.Res? ==> Available(f, v.id, b, i)
    ensures Kept(nm.subst, Apply(nm.subst, v))
    decreases Depth(f.graph, b), i, 2
  {
    if v.Res? && v.id in nm.subst {
      var c, j :| DefinedAt(f, v.id, c, j) && ((c == b && j < i) || StrictlyDominates(f.graph, c, b));
      var c', j' :| LoadAt(f, v.id, c', j');
      assert DefinedAt(f, v.id, c', j');
      if c != b {
        DepthDecreases(f.graph, c, b);
      }
      assert BlockNamed(f, nm, c) && LoadNamed(f, nm, c, j);
      TopsKept(f, m, nm, c, j, f.body[c][j].slot);
    }
  }

  /** No reachable instruction, terminator or live phi operand mentions id. */
  ghost predicate Unused(f: Func, id: Id) {
    forall b | b in f.graph.blocks && Reachable(f.graph, b) && b in f.body && b in f.term && b in f.phis ::
      && (forall i | 0 <= i < |f.body[b]| :: Res(id) !in Uses(f.body[b][i]))
      && Res(id) !in TermUses(f.term[b])
      && forall k, p | 0 <= k < |f.phis[b]| && Edge(f.graph, p, b) && Reachable(f.graph, p) ::
           Incoming(f.phis[b][k].pairs, p) != Some(Res(id))
  }

  ghost predicate AllKept(s: Subst, vs: seq<Val>) {
    forall v | v in vs :: Kept(s, Apply(s, v))
  }

  lemma {:induction false} FinalBodyKept(s: Subst, instrs: seq<Instr>, id: Id)
    requires id in s && forall i | 0 <= i < |instrs| :: AllKept(s, Uses(instrs[i]))
    ensures forall i | 0 <= i < |FinalBody(s, instrs)| :: Res(id) !in Uses(FinalBody(s, instrs)[i])
    decreases |instrs|
  {
    if instrs != [] {
      var init, last := instrs[..|instrs| - 1], instrs[|instrs| - 1];
      forall i | 0 <= i < |init| ensures AllKept(s, Uses(init[i])) {
        assert init[i] == instrs[i];
      }
      FinalBodyKept(s, init, id);
      assert AllKept(s, Uses(instrs[|instrs| - 1]));
      if last.Op? {
        forall k | 0 <= k < |last.args| ensures Apply(s, last.args[k]) != Res(id) {
          assert last.args[k] in Uses(last);
        }
      }
    }
  }

  lemma OperandsKept(f: Func, m: IdomMap, nm: Naming, b: Block, i: nat, vs: seq<Val>)
    requires RenamingInput(f, m, nm.slotOf) && Named(f, m, nm)
    requires b in f.graph.blocks && Reachable(f.graph, b) && i <= |f.body[b]| && AllAvailable(f, vs, b, i)
    ensures AllKept(nm.subst, vs)
  {
    hide RenamingInput, Named;
    forall v | v in vs ensures Kept(nm.subst, Apply(nm.subst, v)) {
      ReplacedKept(f, m, nm, v, b, i);
    }
  }

  /** After renaming nothing uses the replaced loads. */
  lemma ReplacedUnused(f: Func, f': Func, m: IdomMap, nm: Naming, id: Id)
    requires RenamingInput(f, m, nm.slotOf) && Named(f, m, nm) && Renamed(f, f', nm) && id in nm.subst
    ensures Unused(f', id)
  {
    hide UniqueIds, PhisFresh, PhisClosed, IdomCorrect, WellFormed, Available, Edge, Reachable;
    forall b | b in f.graph.blocks && Reachable(f.graph, b)
      ensures forall i | 0 <= i < |f'.body[b]| :: Res(id) !in Uses(f'.body[b][i])
      ensures Res(id) !in TermUses(f'.term[b])
      ensures forall k, p | 0 <= k < |f'.phis[b]| && Edge(f.graph, p, b) && Reachable(f.graph, p) ::
           Incoming(f'.phis[b][k].pairs, p) != Some(Res(id))
    {
      forall i | 0 <= i < |f.body[b]| ensures AllKept(nm.subst, Uses(f.body[b][i])) {
        OperandsKept(f, m, nm, b, i, Uses(f.body[b][i]));
      }
      FinalBodyKept(nm.subst, f.body[b], id);
      OperandsKept(f, m, nm, b, |f.body[b]|, TermUses(f.term[b]));
      assert forall v | v in TermUses(f.term[b]) :: Apply(nm.subst, v) != Res(id);
      TermKept(nm.subst, f.term[b], id);
      forall k, p | 0 <= k < |f'.phis[b]| && Edge(f.graph, p, b) && Reachable(f.graph, p)
        ensures Incoming(f'.phis[b][k].pairs, p) != Some(Res(id))
      {
        PairKept(f, f', m, nm, id, b, k, p);
      }
    }
  }

  lemma TermKept(s: Subst, t: Term, id: Id)
    requires forall v | v in TermUses(t) :: Apply(s, v) != Res(id)
    ensures Res(id) !in TermUses(ApplyTerm(s, t))
  {
    match t
    case Br(_) =>
    case CondBr(v, _, _) => assert v in TermUses(t);
    case Ret(v) => if v.Some? { assert v.value in TermUses(t); }
  }

  lemma PairKept(f: Func, f': Func, m: IdomMap, nm: Naming, id: Id, b: Block, k: nat, p: Block)
    requires RenamingInput(f, m, nm.slotOf) && Named(f, m, nm) && Renamed(f, f', nm) && id in nm.subst
    requires b in f.graph.blocks && Reachable(f.graph, b) && k < |f'.phis[b]| && Edge(f.graph, p, b) && Reachable(f.graph, p)
    ensures Incoming(f'.phis[b][k].pairs, p) != Some(Res(id))
  {
    hide UniqueIds, UsesDominated, PhisFresh, PhisClosed, IdomCorrect;
    var phi := f'.phis[b][k];
    assert PairsMatch(f, nm, b, phi);
    assert BlockNamed(f, nm, p);
    var x := nm.slotOf[phi.id];
    if x in nm.end[p] {
      TopsKept(f, m, nm, p, |f.body[p]|, x);
    }
  }
}
