/** The pass that turns promotable stack slots into SSA values: phi placement on
    iterated dominance frontiers, then renaming along the dominator tree. */
module MemToReg {
  import opened Common
  import opened Cfg
  import opened IdomTree
  import opened DominatorAnalysis
  import opened Ir
  import opened Marking
  import opened Renaming
  import opened PhiPlacement
  import opened RenameProgress
  import opened RenamedForm
  import opened Ssa
  import opened RenameVisit
  import opened Simulation
  import opened StoreReach

  ghost predicate Stores(instrs: seq<Instr>, x: Slot) {
    exists i :: 0 <= i < |instrs| && instrs[i].Store? && instrs[i].slot == x
  }

  lemma StoresNext(instrs: seq<Instr>, j: nat, x: Slot)
    requires j < |instrs|
    ensures Stores(instrs[..j + 1], x) <==> Stores(instrs[..j], x) || (instrs[j].Store? && instrs[j].slot == x)
  {
    if instrs[j].Store? && instrs[j].slot == x {
      assert instrs[..j + 1][j].Store?;
    }
    if Stores(instrs[..j], x) {
      var i :| 0 <= i < j && instrs[..j][i].Store? && instrs[..j][i].slot == x;
      assert instrs[..j + 1][i] == instrs[..j][i];
    }
    if Stores(instrs[..j + 1], x) {
      var i :| 0 <= i < j + 1 && instrs[..j + 1][i].Store? && instrs[..j + 1][i].slot == x;
      assert i < j ==> instrs[..j][i] == instrs[..j + 1][i];
    }
  }

  /** The store blocks found so far: full blocks, and the first j instructions of bb. */
  ghost predicate Collected(body: map<Block, seq<Instr>>, live: map<Slot, set<Block>>, full: seq<Block>, bb: Block, part: seq<Instr>) {
    && (forall b | b in full :: b in body)
    && (forall x | x in live :: live[x] != {})
    && forall x, b :: (x in live && b in live[x]) <==> (b in full && Stores(body[b], x)) || (b == bb && Stores(part, x))
  }

  lemma CollectNext(body: map<Block, seq<Instr>>, live: map<Slot, set<Block>>, full: seq<Block>, bb: Block, j: nat)
    requires bb in body && j < |body[bb]| && Collected(body, live, full, bb, body[bb][..j])
    ensures var instr := body[bb][j];
            var live' := if !instr.Store? then live
                         else live[instr.slot := (if instr.slot in live then live[instr.slot] else {}) + {bb}];
            Collected(body, live', full, bb, body[bb][..j + 1])
  {
    forall x ensures Stores(body[bb][..j + 1], x) <==>
                     Stores(body[bb][..j], x) || (body[bb][j].Store? && body[bb][j].slot == x)
    {
      StoresNext(body[bb], j, x);
    }
  }

  lemma StoreBlocksAre(f: Func, live: map<Slot, set<Block>>, x: Slot)
    requires forall b | b in f.graph.blocks :: b in f.body
    requires forall x, b :: (x in live && b in live[x]) <==> b in f.graph.blocks && Stores(f.body[b], x)
    ensures StoreBlocks(f, x) == if x in live then live[x] else {}
  {
    forall b ensures b in StoreBlocks(f, x) <==> x in live && b in live[x] {
      assert b in f.graph.blocks ==> (StoresTo(f, b, x) <==> Stores(f.body[b], x));
    }
  }

  lemma SameStoreBlocks(f: Func, f': Func, x: Slot)
    requires f'.graph == f.graph && f'.body == f.body
    ensures StoreBlocks(f', x) == StoreBlocks(f, x)
  {
    assert forall b :: StoresTo(f', b, x) <==> StoresTo(f, b, x);
  }

  lemma NoPhis(g: Graph, phis: PhiMap, slotOf: map<Id, Slot>, next: Id)
    requires forall b | b in g.blocks :: b in phis && phis[b] == []
    ensures PhisAre(g, phis, slotOf, {}, next, next)
  {
  }

  lemma FrontierInBlocks(g: Graph, df: FrontierMap)
    requires FrontierCorrect(g, df)
    ensures forall c | c in g.blocks :: c in df && df[c] <= Elements(g.blocks)
  {
    forall c, b | c in g.blocks && b in df[c] ensures b in Elements(g.blocks) {
    }
  }

  lemma PhisKnown(g: Graph, phis: PhiMap, slotOf: map<Id, Slot>, has: set<(Block, Slot)>, first: Id, next: Id)
    requires PhisAre(g, phis, slotOf, has, first, next)
    ensures first <= next && forall b | b in g.blocks :: b in phis
  {
  }

  /** Of the slots in the list, exactly the pairs of a slot and a block of its iterated frontier. */
  ghost predicate PlacedSoFar(f: Func, df: FrontierMap, slots: seq<Slot>, has: set<(Block, Slot)>) {
    forall b, y :: (b, y) in has <==> y in slots && InIteratedFrontier(df, StoreBlocks(f, y), b)
  }

  lemma PlacedNone(f: Func, df: FrontierMap)
    ensures PlacedSoFar(f, df, [], {})
  {
  }

  lemma PlacedMore(f: Func, df: FrontierMap, live: map<Slot, set<Block>>, slots: seq<Slot>, i: nat, has: set<(Block, Slot)>, has': set<(Block, Slot)>)
    requires i < |slots| && PlacedSoFar(f, df, slots[..i], has) && slots[i] in live && StoreBlocks(f, slots[i]) == live[slots[i]]
    requires forall b, y :: (b, y) in has' <==> (b, y) in has || (y == slots[i] && InIteratedFrontier(df, live[slots[i]], b))
    ensures PlacedSoFar(f, df, slots[..i + 1], has')
  {
    hide InIteratedFrontier, StoreBlocks;
    assert slots[..i + 1] == slots[..i] + [slots[i]];
  }

  lemma StoresInBlocks(f: Func, x: Slot)
    ensures StoreBlocks(f, x) <= Elements(f.graph.blocks)
  {
  }

  lemma PlacedOther(f: Func, df: FrontierMap, slots: seq<Slot>, has: set<(Block, Slot)>, x: Slot)
    requires PlacedSoFar(f, df, slots, has) && x !in slots
    ensures forall b :: (b, x) !in has
  {
  }

  lemma PlacedInAll(f: Func, df: FrontierMap, live: map<Slot, set<Block>>, slots: seq<Slot>, has: set<(Block, Slot)>)
    requires PlacedSoFar(f, df, slots, has) && forall y :: y in slots <==> y in live
    ensures forall b, y :: (b, y) in has <==> y in live && InIteratedFrontier(df, StoreBlocks(f, y), b)
  {
  }

  lemma PlacedForAll(f: Func, f': Func, df: FrontierMap, live: map<Slot, set<Block>>, has: set<(Block, Slot)>)
    requires f'.graph == f.graph && f'.body == f.body
    requires forall x :: StoreBlocks(f, x) == if x in live then live[x] else {}
    requires forall b, y :: (b, y) in has <==> y in live && InIteratedFrontier(df, StoreBlocks(f, y), b)
    ensures forall b, y :: (b, y) in has <==> InIteratedFrontier(df, StoreBlocks(f', y), b)
    ensures forall id, b, i :: DefinedAt(f', id, b, i) <==> DefinedAt(f, id, b, i)
  {
    forall b, y ensures (b, y) in has <==> InIteratedFrontier(df, StoreBlocks(f', y), b) {
      SameStoreBlocks(f, f', y);
      if y !in live {
        assert StoreBlocks(f, y) == {};
      }
    }
  }

  /** What the pass expects of a function: well-formed code whose definitions dominate
      their uses, no phis yet, and an entry that nothing branches back to. */
  ghost predicate PassInput(f: Func, next: Id) {
    && WellFormedFunc(f) && UniqueIds(f) && UsesDominated(f)
    && (forall b | b in f.graph.blocks :: f.phis[b] == [])
    && (forall u :: !Edge(f.graph, u, f.graph.entry))
    && forall id, b, i | DefinedAt(f, id, b, i) :: id < next
  }

  ghost predicate NoStores(instrs: seq<Instr>) {
    forall i | 0 <= i < |instrs| :: !instrs[i].Store?
  }

  /** What the pass achieves in the reachable part: phis for a slot exactly on the iterated
      frontier of its stores, no stores, and no use of a load that a store reaches. */
  ghost predicate Promoted(f: Func, f': Func, slotOf: map<Id, Slot>) {
    && f'.graph == f.graph
    && (forall b | b in f.graph.blocks && Reachable(f.graph, b) :: b in f'.body && NoStores(f'.body[b]))
    && (forall b, x | b in f.graph.blocks && Reachable(f.graph, b) :: HasPhi(f', slotOf, b, x) <==> Joins(f, x, b))
    && (forall id, b, i | LoadAt(f, id, b, i) && Reachable(f.graph, b) && StoreReaches(f, f.body[b][i].slot, b, i) :: Unused(f', id))
  }

  lemma {:induction false} FinalBodyNoStores(s: Subst, instrs: seq<Instr>)
    ensures NoStores(FinalBody(s, instrs))
    decreases |instrs|
  {
    if instrs != [] {
      FinalBodyNoStores(s, instrs[..|instrs| - 1]);
    }
  }

  /** The function with its new phis is fit for renaming. */
  lemma PlacedInput(f: Func, f1: Func, m: IdomMap, slotOf: map<Id, Slot>, df: FrontierMap, next: Id)
    requires PassInput(f, next) && ReachableClosedUnderPred(f.graph)
    requires f1.graph == f.graph && f1.body == f.body && f1.term == f.term && forall b | b in f.graph.blocks :: b in f1.phis
    requires IdomCorrect(f.graph, m) && FrontierCorrect(f.graph, df)
    requires PlacedExactly(f1, slotOf, df) && PhisFresh(f1, slotOf)
    ensures RenamingInput(f1, m, slotOf) && PhisAtJoins(f1, slotOf)
  {
    hide IdomCorrect, FrontierCorrect, PlacedExactly, PhisFresh, PhisClosed, Dominates, ReachableClosedUnderPred;
    PlacedIsClosed(f1, slotOf, df);
    assert forall id, b, i :: DefinedAt(f1, id, b, i) <==> DefinedAt(f, id, b, i);
    forall id, b, i | Available(f, id, b, i) ensures Available(f1, id, b, i) {
      var c, j :| DefinedAt(f, id, c, j) && ((c == b && j < i) || StrictlyDominates(f.graph, c, b));
      assert DefinedAt(f1, id, c, j);
    }
    forall b, x | b in f1.graph.blocks && Reachable(f1.graph, b) ensures HasPhi(f1, slotOf, b, x) <==> Joins(f1, x, b) {
      PlacedAtJoins(f1, slotOf, df, b, x);
    }
  }

  lemma RenameBegin(f: Func, m: IdomMap, slotOf: map<Id, Slot>)
    requires RenamingInput(f, m, slotOf)
    ensures Entering(f, m, slotOf, Progress(map[], map[], map[], {}, {}, {}), f, f.graph.entry, map[])
  {
    hide RenamingInput, InProgress, Subtree;
    ProgressStart(f, m, slotOf);
    EntryReachable(f.graph);
    EntryKnown(f, m, slotOf);
  }

  lemma EntryKnown(f: Func, m: IdomMap, slotOf: map<Id, Slot>)
    requires RenamingInput(f, m, slotOf)
    ensures f.graph.entry in f.graph.blocks
  {
  }

  lemma AllVisited(g: Graph)
    requires WellFormed(g)
    ensures forall b | b in g.blocks && Reachable(g, b) :: b in Subtree(g, g.entry)
  {
    EntryReachable(g);
  }

  /** Stores, phis and loads after renaming. */
  lemma RenamedPromoted(f: Func, f1: Func, f': Func, m: IdomMap, nm: Naming, next: Id)
    requires PassInput(f, next) && ReachableClosedUnderPred(f.graph)
    requires f1.graph == f.graph && f1.body == f.body && f1.term == f.term
    requires RenamingInput(f1, m, nm.slotOf) && PhisAtJoins(f1, nm.slotOf)
    requires Named(f1, m, nm) && Renamed(f1, f', nm)
    ensures Promoted(f, f', nm.slotOf)
  {
    hide RenamingInput, Named, PassInput, ReachableClosedUnderPred, PairsMatch, StoreReaches, Unused, Reachable;
    forall b | b in f.graph.blocks && Reachable(f.graph, b) ensures b in f'.body && NoStores(f'.body[b]) {
      FinalBodyNoStores(nm.subst, f1.body[b]);
    }
    forall b, x | b in f.graph.blocks && Reachable(f.graph, b) ensures HasPhi(f', nm.slotOf, b, x) <==> Joins(f, x, b) {
      PhisKept(f1, f', nm, b, x);
      SameJoins(f, f1, x, b);
    }
    forall id, b, i | LoadAt(f, id, b, i) && Reachable(f.graph, b) && StoreReaches(f, f.body[b][i].slot, b, i)
      ensures Unused(f', id)
    {
      SameReaches(f, f1, f.body[b][i].slot, b, i);
      LoadReplacedIff(f1, m, nm, b, i);
      ReplacedUnused(f1, f', m, nm, id);
    }
  }

  lemma PhisKept(f1: Func, f': Func, nm: Naming, b: Block, x: Slot)
    requires Renamed(f1, f', nm) && b in f1.graph.blocks && Reachable(f1.graph, b)
    ensures HasPhi(f', nm.slotOf, b, x) <==> HasPhi(f1, nm.slotOf, b, x)
  {
    hide PairsMatch, Reachable, FinalBody;
  }

  lemma SameStoresTo(f: Func, f1: Func)
    requires f1.graph == f.graph && f1.body == f.body
    ensures forall b, x :: StoresTo(f1, b, x) <==> StoresTo(f, b, x)
  {
  }

  lemma SameJoins(f: Func, f1: Func, x: Slot, b: Block)
    requires f1.graph == f.graph && f1.body == f.body
    ensures Joins(f1, x, b) <==> Joins(f, x, b)
  {
    hide StoresTo, InFrontier, Reachable;
    SameStoresTo(f, f1);
    if s :| JoinChain(f, x, s, b) {
      assert JoinChain(f1, x, s, b);
    }
    if s :| JoinChain(f1, x, s, b) {
      assert JoinChain(f, x, s, b);
    }
  }

  lemma SameReaches(f: Func, f1: Func, x: Slot, b: Block, i: int)
    requires f1.graph == f.graph && f1.body == f.body && StoreReaches(f, x, b, i)
    ensures StoreReaches(f1, x, b, i)
  {
    hide StoresTo, WalkTo, Reachable;
    SameStoresTo(f, f1);
    if p :| StoreWalk(f, x, p, b) {
      assert StoreWalk(f1, x, p, b);
    }
  }

  /** The end of the pass: everything reachable is renamed, and means the same. */
  lemma RenameResult(f: Func, f1: Func, f': Func, m: IdomMap, slotOf: map<Id, Slot>, pr: Progress, next: Id)
    requires PassInput(f, next) && ReachableClosedUnderPred(f.graph)
    requires f1.graph == f.graph && f1.body == f.body && f1.term == f.term
    requires RenamingInput(f1, m, slotOf) && PhisAtJoins(f1, slotOf)
    requires InProgress(f1, m, slotOf, pr, f')
    requires Subtree(f.graph, f.graph.entry) <= pr.scanned && Subtree(f.graph, f.graph.entry) <= pr.erased
    ensures Refines(f, f') && Promoted(f, f', slotOf)
  {
    hide RenamingInput, InProgress, Named, Renamed, Subtree, SameOutcome, ReachableClosedUnderPred, Promoted, PhisAtJoins, UniqueIds,
      UsesDominated, DefinedAt, Reachable;
    AllVisited(f.graph);
    ProgressEnd(f1, m, slotOf, pr, f');
    RenamingRefines(f1, f', m, NamingOf(slotOf, pr));
    RenamedPromoted(f, f1, f', m, NamingOf(slotOf, pr), next);
    NewPhisEmpty(f1, m, slotOf);
    forall sem: Sem, args: seq<int>, n: nat | Run(f, sem, args, n).regs.clean
      ensures SameOutcome(Run(f, sem, args, n), Run(f', sem, args, n))
    {
      EmptyPhisRun(f, f1, sem, args, n);
    }
  }

  lemma {:induction false} FinalFrom(s: Subst, instrs: seq<Instr>, instr: Instr)
    requires instr in FinalBody(s, instrs)
    ensures exists i :: 0 <= i < |instrs| && instr == ApplyInstr(s, instrs[i])
    decreases |instrs|
  {
    var init, last := instrs[..|instrs| - 1], instrs[|instrs| - 1];
    if instr in FinalBody(s, init) {
      FinalFrom(s, init, instr);
      var i :| 0 <= i < |init| && instr == ApplyInstr(s, init[i]);
      assert instrs[i] == init[i];
    } else {
      assert instr == ApplyInstr(s, instrs[|instrs| - 1]);
    }
  }

  /** A value that is left is defined where it was before. */
  lemma RenamedItem(f1: Func, m: IdomMap, slotOf: map<Id, Slot>, pr: Progress, f': Func, item: Item) returns (b: Block, i: int)
    requires WellFormedFunc(f1) && InProgress(f1, m, slotOf, pr, f') && WellFormedFunc(f') && ItemIn(f', item) && Defined(item).Some?
    ensures item.InstrItem? ==> DefinedAt(f1, Defined(item).value, b, i) && item.instr == ApplyInstr(pr.subst, f1.body[b][i])
    ensures item.PhiItem? ==> PhiAt(f1, Defined(item).value, b, i) && b in f'.phis && i < |f'.phis[b]| && item.phi == f'.phis[b][i]
  {
    hide ScannedOk, SubstOk, EdgesLinked, PairsSoFar, WellFormed;
    var c :| c in f'.graph.blocks && ItemAt(f', c, item);
    b, i := c, 0;
    if item.PhiItem? {
      var k :| 0 <= k < |f'.phis[c]| && f'.phis[c][k] == item.phi;
      i := k;
    } else if c in pr.erased {
      FinalFrom(pr.subst, f1.body[c], item.instr);
      var k :| 0 <= k < |f1.body[c]| && item.instr == ApplyInstr(pr.subst, f1.body[c][k]);
      i := k;
    } else {
      var k :| 0 <= k < |f'.body[c]| && f'.body[c][k] == item.instr;
      i := k;
    }
  }

  /** Every value has one definition after the pass, too. */
  lemma RenamedOnce(f1: Func, m: IdomMap, slotOf: map<Id, Slot>, pr: Progress, f': Func)
    requires RenamingInput(f1, m, slotOf) && InProgress(f1, m, slotOf, pr, f')
    ensures WellFormedFunc(f') && DefinedOnce(f')
  {
    hide UsesDominated, IdomCorrect, PhisClosed, ScannedOk, SubstOk, EdgesLinked, PairsSoFar, DefinedAt, PhiAt;
    assert WellFormedFunc(f');
    forall x, y | ItemIn(f', x) && ItemIn(f', y) && Defined(x).Some? && Defined(x) == Defined(y) ensures x == y {
      var b, i := RenamedItem(f1, m, slotOf, pr, f', x);
      var c, j := RenamedItem(f1, m, slotOf, pr, f', y);
      OnePlace(f1, slotOf, Defined(x).value, b, i, c, j);
    }
  }

  /** Unconditional branches are as they were. */
  ghost predicate SameBranches(f: Func, f': Func) {
    forall b | b in f.graph.blocks && b in f.term && f.term[b].Br? :: b in f'.term && f'.term[b] == f.term[b]
  }

  lemma BranchesSame(f: Func, f1: Func, m: IdomMap, slotOf: map<Id, Slot>, pr: Progress, f': Func)
    requires f1.graph == f.graph && f1.term == f.term && InProgress(f1, m, slotOf, pr, f')
    ensures SameBranches(f, f')
  {
    hide ScannedOk, SubstOk, PhisAreSoFar, EdgesLinked;
  }

  lemma ResultIsSsa(f1: Func, m: IdomMap, slotOf: map<Id, Slot>, pr: Progress, f': Func)
    requires RenamingInput(f1, m, slotOf) && InProgress(f1, m, slotOf, pr, f') && WellFormedFunc(f')
    requires Subtree(f1.graph, f1.graph.entry) <= pr.scanned && Subtree(f1.graph, f1.graph.entry) <= pr.erased
    ensures SsaForm(f') && PairsOnEdges(f')
  {
    hide InProgress, Subtree, SsaForm, PairsOnEdges, Reachable, IdomCorrect, PhisFresh, PhisClosed, UsesDominated, UniqueIds;
    AllVisited(f1.graph);
    RenamedIsSsa(f1, m, slotOf, pr, f');
  }

  lemma OnePlace(f1: Func, slotOf: map<Id, Slot>, id: Id, b: Block, i: int, c: Block, j: int)
    requires UniqueIds(f1) && PhisFresh(f1, slotOf)
    ensures DefinedAt(f1, id, b, i) && DefinedAt(f1, id, c, j) ==> b == c && i == j
    ensures PhiAt(f1, id, b, i) && PhiAt(f1, id, c, j) ==> b == c && i == j
    ensures !(PhiAt(f1, id, b, i) && DefinedAt(f1, id, c, j)) && !(PhiAt(f1, id, c, j) && DefinedAt(f1, id, b, i))
  {
  }

  lemma NewPhisEmpty(f: Func, m: IdomMap, slotOf: map<Id, Slot>)
    requires RenamingInput(f, m, slotOf)
    ensures WellFormedFunc(f) && PhisWithoutPairs(f)
  {
    forall b, k | b in f.graph.blocks && b in f.phis && 0 <= k < |f.phis[b]| ensures f.phis[b][k].pairs == [] {
      assert PhiAt(f, f.phis[b][k].id, b, k);
    }
  }

  class Mem2Reg {
    var phis: PhiMap
    var body: map<Block, seq<Instr>>
    var term: map<Block, Term>
    var phiLval: map<Id, Slot>
    var varValStack: map<Slot, seq<Val>>
    var nextId: Id
    var dominators: Dominators

    /** The pass on a function whose instructions have identities below next. */
    constructor (f: Func, next: Id)
      ensures Code(f.graph) == f && nextId == next
      ensures fresh(dominators) && dominators.Valid()
      ensures dominators.postOrder == map[] && dominators.domFrontier == map[] && dominators.domTreeSucc == map[]
    {
      phis, body, term, nextId := f.phis, f.body, f.term, next;
      phiLval, varValStack := map[], map[];
      dominators := new Dominators();
    }

    ghost function Code(g: Graph): Func
      reads this
    {
      Func(g, phis, body, term)
    }

    /** Step 1 of phi generation: the blocks that store to each promotable slot. */
    method CollectStores(g: Graph) returns (live: map<Slot, set<Block>>)
      requires forall b | b in g.blocks :: b in body
      ensures forall x, b :: (x in live && b in live[x]) <==> b in g.blocks && Stores(body[b], x)
      ensures forall x | x in live :: live[x] != {}
    {
      live := map[];
      assert forall x :: !Stores([], x);
      var i := 0;
      while i < |g.blocks|
        invariant 0 <= i <= |g.blocks|
        invariant Collected(body, live, g.blocks[..i], 0, [])
      {
        var bb := g.blocks[i];
        var instrs := body[bb];
        assert instrs[..0] == [];
        assert Collected(body, live, g.blocks[..i], bb, instrs[..0]);
        var j := 0;
        while j < |instrs|
          invariant 0 <= j <= |instrs|
          invariant Collected(body, live, g.blocks[..i], bb, instrs[..j])
        {
          CollectNext(body, live, g.blocks[..i], bb, j);
          if instrs[j].Store? {
            var x := instrs[j].slot;
            live := live[x := (if x in live then live[x] else {}) + {bb}];
          }
          j := j + 1;
        }
        assert instrs[..j] == body[bb];
        assert g.blocks[..i + 1] == g.blocks[..i] + [bb];
        i := i + 1;
      }
      assert g.blocks[..i] == g.blocks;
    }

    /** Step 2 for one slot: the worklist grows while it is indexed. */
    method PlacePhis(g: Graph, df: FrontierMap, x: Slot, defs: set<Block>, has: set<(Block, Slot)>, ghost first: Id)
      returns (has': set<(Block, Slot)>)
      requires PhisAre(g, phis, phiLval, has, first, nextId)
      requires forall b :: (b, x) !in has
      requires defs <= Elements(g.blocks)
      requires forall c | c in g.blocks :: c in df && df[c] <= Elements(g.blocks)
      modifies this`phis, this`phiLval, this`nextId
      ensures PhisAre(g, phis, phiLval, has', first, nextId)
      ensures forall b, y :: (b, y) in has' <==>
                (b, y) in has || (y == x && InIteratedFrontier(df, defs, b))
    {
      hide PhisAre, Working, InIteratedFrontier;
      has' := has;
      var workList := SetToSeq(defs);
      WorkStart(g, df, defs, workList);
      ghost var hx: set<Block> := {};
      var i := 0;
      while i < |workList|
        invariant 0 <= i <= |workList| && Working(g, df, defs, hx, workList, i)
        invariant PhisAre(g, phis, phiLval, has', first, nextId)
        invariant forall b, y :: (b, y) in has' <==> (b, y) in has || (y == x && b in hx)
        decreases Elements(g.blocks) - hx, |workList| - i
      {
        var bb := workList[i];
        WorkItem(g, df, defs, hx, workList, i);
        var frontier := SetToSeq(df[bb]);
        ghost var hx0, len0 := hx, |workList|;
        var k := 0;
        while k < |frontier|
          invariant 0 <= k <= |frontier|
          invariant 0 <= i < |workList| && Working(g, df, defs, hx, workList, i) && workList[i] == bb && bb in g.blocks
          invariant hx0 <= hx <= Elements(g.blocks) && (hx == hx0 ==> |workList| == len0)
          invariant PhisAre(g, phis, phiLval, has', first, nextId)
          invariant forall b, y :: (b, y) in has' <==> (b, y) in has || (y == x && b in hx)
          invariant forall j | 0 <= j < k :: frontier[j] in hx
        {
          var b := frontier[k];
          assert b in frontier;
          if (b, x) !in has' {
            PhiAdded(g, phis, phiLval, has', first, nextId, b, x);
            WorkPush(g, df, defs, hx, workList, i, b);
            phis := phis[b := [Phi(nextId, [])] + phis[b]];
            phiLval := phiLval[nextId := x];
            nextId := nextId + 1;
            workList := workList + [b];
            has' := has' + {(b, x)};
            hx := hx + {b};
          }
          k := k + 1;
        }
        assert df[bb] <= hx;
        WorkAdvance(g, df, defs, hx, workList, i);
        i := i + 1;
      }
      WorkDone(g, df, defs, hx, workList);
    }

    /** Phi generation: exactly the iterated frontier of each slot's stores gets a phi. */
    method GeneratePhi(g: Graph, ghost f: Func)
      requires f == Code(g) && phiLval == map[]
      requires forall b | b in g.blocks :: b in body && b in phis && phis[b] == []
      requires forall id, b, i | DefinedAt(f, id, b, i) :: id < nextId
      requires FrontierCorrect(g, dominators.domFrontier)
      modifies this`phis, this`phiLval, this`nextId
      ensures PlacedExactly(Code(g), phiLval, dominators.domFrontier) && PhisFresh(Code(g), phiLval)
      ensures forall b | b in g.blocks :: b in phis
      ensures nextId >= old(nextId)
    {
      hide PhisAre, FrontierCorrect, InIteratedFrontier, PlacedExactly, PhisFresh, DefinedAt, Stores, PlacedSoFar, StoreBlocks;
      ghost var first := nextId;
      var df := dominators.domFrontier;
      var live := CollectStores(g);
      forall x ensures StoreBlocks(f, x) == if x in live then live[x] else {} {
        StoreBlocksAre(f, live, x);
      }
      var vars := SetToSeq(live.Keys);
      var bbHasVarPhi: set<(Block, Slot)> := {};
      NoPhis(g, phis, phiLval, nextId);
      FrontierInBlocks(g, df);
      PlacedNone(f, df);
      var i := 0;
      assert vars[..i] == [];
      while i < |vars|
        invariant 0 <= i <= |vars|
        invariant PhisAre(g, phis, phiLval, bbHasVarPhi, first, nextId)
        invariant PlacedSoFar(f, df, vars[..i], bbHasVarPhi)
      {
        var x := vars[i];
        assert x in vars && x !in vars[..i];
        ghost var has := bbHasVarPhi;
        PlacedOther(f, df, vars[..i], has, x);
        StoresInBlocks(f, x);
        bbHasVarPhi := PlacePhis(g, df, x, live[x], bbHasVarPhi, first);
        PlacedMore(f, df, live, vars, i, has, bbHasVarPhi);
        i := i + 1;
      }
      assert vars[..i] == vars;
      PlacedInAll(f, df, live, vars, bbHasVarPhi);
      PhisKnown(g, phis, phiLval, bbHasVarPhi, first, nextId);
      PlacedForAll(f, Code(g), df, live, bbHasVarPhi);
      PlacedFromPairs(Code(g), phiLval, bbHasVarPhi, first, nextId, df);
    }

    /** All uses of one value, in the whole function. */
    method ReplaceAllUseWith(ghost g: Graph, id: Id, v: Val)
      modifies this`phis, this`body, this`term
      ensures Code(g) == ReplaceIn(old(Code(g)), id, v)
    {
      phis := map b | b in phis :: ApplyPhis(map[id := v], phis[b]);
      body := map b | b in body :: ApplyBody(map[id := v], body[b]);
      term := map b | b in term :: ApplyTerm(map[id := v], term[b]);
    }

    /** The first loop of rename: phis and stores push, loads are replaced. */
    method ScanBlock(ghost g: Graph, ghost f: Func, ghost m: IdomMap, bb: Block, ghost pr: Progress) returns (ghost pr': Progress)
      requires f.graph == g && Entering(f, m, phiLval, pr, Code(g), bb, varValStack)
      modifies this`phis, this`body, this`term, this`varValStack
      ensures Scanned(f, m, phiLval, pr, pr', Code(g), bb, [], old(varValStack), varValStack)
    {
      hide Entering, ScanState, PhiPushes, Scanned, RenamingInput, InProgress, ReplaceIn, ApplyPhis, ApplyBody, ApplyTerm;
      EnteringKnown(f, m, phiLval, pr, Code(g), bb, varValStack);
      PhisSeen(f, m, phiLval, pr, Code(g), bb);
      PhiPushesStart(phiLval, f.phis[bb], varValStack);
      var k := 0;
      while k < |phis[bb]|
        invariant phis == old(phis) && body == old(body) && term == old(term)
        invariant 0 <= k <= |phis[bb]| && PhiPushes(phiLval, f.phis[bb], k, old(varValStack), varValStack)
      {
        var phi := phis[bb][k];
        PhiPushesStep(phiLval, f.phis[bb], k, old(varValStack), varValStack);
        varValStack := Push(varValStack, phiLval[phi.id], Res(phi.id));
        k := k + 1;
      }
      ScanBegin(f, m, phiLval, pr, Code(g), bb, old(varValStack), varValStack);
      pr' := pr.(start := pr.start[bb := StackTops(old(varValStack))]);
      ScanSees(f, m, phiLval, pr, pr', Code(g), bb, 0, old(varValStack), varValStack);
      var i := 0;
      while i < |body[bb]|
        invariant bb in body && bb in f.body && |body[bb]| == |f.body[bb]| && 0 <= i <= |body[bb]|
        invariant ScanState(f, m, phiLval, pr, pr', Code(g), bb, i, old(varValStack), varValStack)
      {
        ScanSees(f, m, phiLval, pr, pr', Code(g), bb, i, old(varValStack), varValStack);
        var instr := body[bb][i];
        if instr.Store? {
          StateStore(f, m, phiLval, pr, pr', Code(g), bb, i, old(varValStack), varValStack);
          varValStack := Push(varValStack, instr.slot, instr.rval);
        } else if instr.Load? && instr.slot in varValStack && varValStack[instr.slot] != [] {
          var top := varValStack[instr.slot][|varValStack[instr.slot]| - 1];
          ghost var before := Code(g);
          ReplaceAllUseWith(g, instr.id, top);
          StateLoad(f, m, phiLval, pr, pr', before, Code(g), bb, i, old(varValStack), varValStack);
          pr' := pr'.(subst := pr'.subst[instr.id := top]);
        } else {
          StateKeep(f, m, phiLval, pr, pr', Code(g), bb, i, old(varValStack), varValStack);
        }
        i := i + 1;
        ScanSees(f, m, phiLval, pr, pr', Code(g), bb, i, old(varValStack), varValStack);
      }
      ScanFinish(f, m, phiLval, pr, pr', Code(g), bb, i, old(varValStack), varValStack);
      pr' := pr'.(end := pr'.end[bb := StackTops(varValStack)], scanned := pr'.scanned + {bb});
    }

    /** The second loop: a pair for every phi of every successor whose slot has a value. */
    method LinkSuccessors(g: Graph, ghost f: Func, ghost m: IdomMap, bb: Block, ghost pr0: Progress, ghost pr: Progress, ghost st0: StackMap)
      returns (ghost pr': Progress)
      requires f.graph == g && WellFormed(g) && bb in g.blocks
      requires Scanned(f, m, phiLval, pr0, pr, Code(g), bb, [], st0, varValStack)
      modifies this`phis
      ensures Scanned(f, m, phiLval, pr0, pr', Code(g), bb, g.succ[bb], st0, varValStack)
    {
      hide Scanned, PartLinked, WellFormed;
      SuccessorsKnown(g, bb);
      pr' := pr;
      var i := 0;
      assert g.succ[bb][..0] == [];
      while i < |g.succ[bb]|
        invariant 0 <= i <= |g.succ[bb]|
        invariant Scanned(f, m, phiLval, pr0, pr', Code(g), bb, g.succ[bb][..i], st0, varValStack)
      {
        var succ := g.succ[bb][i];
        assert g.succ[bb][..i + 1] == g.succ[bb][..i] + [succ];
        ScannedPhis(f, m, phiLval, pr0, pr', Code(g), bb, g.succ[bb][..i], st0, varValStack, succ);
        ghost var before := Code(g);
        PartLinkedStart(phiLval, StackTops(varValStack), phis[succ], bb);
        var k := 0;
        while k < |phis[succ]|
          invariant succ in phis && phis == before.phis[succ := phis[succ]] && 0 <= k <= |phis[succ]|
          invariant PartLinked(phiLval, StackTops(varValStack), before.phis[succ], phis[succ], bb, k)
        {
          ghost var now := phis[succ];
          PartLinkedStep(phiLval, StackTops(varValStack), before.phis[succ], now, bb, k);
          var phi := phis[succ][k];
          assert phi == before.phis[succ][k];
          var x := phiLval[phi.id];
          if x in varValStack && varValStack[x] != [] {
            var pair := (varValStack[x][|varValStack[x]| - 1], bb);
            phis := phis[succ := phis[succ][k := Phi(phi.id, phi.pairs + [pair])]];
          }
          assert phis[succ] == now[k := LinkPhi(phiLval, StackTops(varValStack), now[k], bb)];
          k := k + 1;
        }
        ScannedLink(f, m, phiLval, pr0, pr', before, bb, g.succ[bb][..i], st0, varValStack, succ, phis[succ]);
        pr' := pr'.(linked := pr'.linked + {(bb, succ)});
        i := i + 1;
      }
      assert g.succ[bb][..i] == g.succ[bb];
    }

    /** The last loop: one pop per phi and store, and the stores go. */
    method PopBlock(ghost g: Graph, ghost f: Func, ghost m: IdomMap, bb: Block, ghost pr0: Progress, ghost pr: Progress,
                    ghost st0: StackMap, ghost st1: StackMap)
      returns (ghost pr': Progress)
      requires f.graph == g && Popping(f, m, phiLval, pr0, pr, Code(g), bb, 0, 0, st0, st1, varValStack)
      modifies this`body, this`varValStack
      ensures Visited(f, m, phiLval, pr0, pr', Code(g), Subtree(g, bb), st0, varValStack)
    {
      hide Popping, Visited, Subtree;
      PopSees(f, m, phiLval, pr0, pr, Code(g), bb, 0, 0, st0, st1, varValStack);
      var k := 0;
      while k < |phis[bb]|
        invariant body == old(body)
        invariant 0 <= k <= |phis[bb]| && Popping(f, m, phiLval, pr0, pr, Code(g), bb, k, 0, st0, st1, varValStack)
      {
        PopSees(f, m, phiLval, pr0, pr, Code(g), bb, k, 0, st0, st1, varValStack);
        PopPhi(f, m, phiLval, pr0, pr, Code(g), bb, k, st0, st1, varValStack);
        varValStack := Pop(varValStack, phiLval[phis[bb][k].id]);
        k := k + 1;
      }
      PopSees(f, m, phiLval, pr0, pr, Code(g), bb, k, 0, st0, st1, varValStack);
      var kept: seq<Instr> := [];
      var i := 0;
      while i < |body[bb]|
        invariant body == old(body)
        invariant 0 <= i <= |body[bb]| && Popping(f, m, phiLval, pr0, pr, Code(g), bb, k, i, st0, st1, varValStack)
        invariant kept == DropStores(body[bb][..i])
      {
        PopSees(f, m, phiLval, pr0, pr, Code(g), bb, k, i, st0, st1, varValStack);
        PopStore(f, m, phiLval, pr0, pr, Code(g), bb, k, i, st0, st1, varValStack);
        var instr := body[bb][i];
        assert body[bb][..i + 1][..i] == body[bb][..i];
        if instr.Store? {
          if instr.slot in varValStack && varValStack[instr.slot] != [] {
            varValStack := Pop(varValStack, instr.slot);
          } else {
            kept := kept + [instr];
          }
        } else {
          kept := kept + [instr];
        }
        i := i + 1;
      }
      assert body[bb][..i] == body[bb];
      PoppingEnd(f, m, phiLval, pr0, pr, Code(g), bb, k, i, st0, st1, varValStack);
      pr' := pr.(erased := pr.erased + {bb});
      body := body[bb := kept];
    }

    /** The visit of a block and, recursively, of its dominator subtree, children in any order. */
    method Rename(g: Graph, ghost f: Func, bb: Block, ghost pr: Progress) returns (ghost pr': Progress)
      requires f.graph == g && TreeCorrect(g, dominators.idom, dominators.domTreeSucc)
      requires Entering(f, dominators.idom, phiLval, pr, Code(g), bb, varValStack)
      modifies this`phis, this`body, this`term, this`varValStack
      ensures Visited(f, dominators.idom, phiLval, pr, pr', Code(g), Subtree(g, bb), old(varValStack), varValStack)
      decreases |Subtree(g, bb)|
    {
      hide Entering, Scanned, Between, Popping, Visited, Subtree, TreeCorrect, WellFormed;
      ghost var m, code0, st0 := dominators.idom, Code(g), varValStack;
      EnteringKnown(f, m, phiLval, pr, Code(g), bb, varValStack);
      TreeKnown(g, m, dominators.domTreeSucc, bb);
      pr' := ScanBlock(g, f, m, bb, pr);
      ghost var st1 := varValStack;
      pr' := LinkSuccessors(g, f, m, bb, pr, pr', st0);
      BetweenStart(f, m, phiLval, pr, pr', Code(g), bb, st0, st1);
      var rest := dominators.domTreeSucc[bb];
      while rest != {}
        invariant Between(f, m, phiLval, pr, pr', Code(g), bb, rest, st0, st1, varValStack)
        decreases rest
      {
        var succ :| succ in rest;
        EnterChild(f, m, phiLval, pr, pr', code0, Code(g), bb, rest, st0, st1, varValStack, succ);
        ghost var mid, code1, st := pr', Code(g), varValStack;
        pr' := Rename(g, f, succ, mid);
        LeaveChild(f, m, phiLval, pr, mid, pr', code0, code1, Code(g), bb, rest, st0, st1, st, varValStack, succ);
        rest := rest - {succ};
      }
      PoppingStart(f, m, phiLval, pr, pr', code0, Code(g), bb, st0, st1, varValStack);
      pr' := PopBlock(g, f, m, bb, pr, pr', st0, st1);
    }

    /** The whole pass on one function. It ends early only where the dominator analysis
        throws; otherwise the new code refines the old. */
    method Run(g: Graph) returns (outcome: Outcome)
      requires PassInput(Code(g), nextId)
      requires dominators.Valid() && Disjoint(dominators.postOrder.Keys, g.blocks)
      requires Disjoint(dominators.domFrontier.Keys + dominators.domTreeSucc.Keys, g.blocks)
      modifies this, dominators
      ensures dominators == old(dominators)
      ensures outcome.Finished? <==> ReachableClosedUnderPred(g)
      ensures outcome.Finished? ==> Refines(old(Code(g)), Code(g)) && Promoted(old(Code(g)), Code(g), phiLval)
      ensures outcome.Finished? ==> WellFormedFunc(Code(g)) && DefinedOnce(Code(g)) && SsaForm(Code(g)) && PairsOnEdges(Code(g))
      ensures outcome.Finished? ==> SameBranches(old(Code(g)), Code(g))
    {
      hide SameBranches, SsaForm, PairsOnEdges, DefinedOnce, RenamingInput, Entering, InProgress, TreeCorrect, FrontierCorrect, IdomCorrect, IntervalsDecide, DominatorsLast,
        PlacedExactly, PhisFresh, Subtree, ReachableClosedUnderPred, UniqueIds, UsesDominated, Refines, Promoted, Disjoint, PhisAtJoins;
      ghost var f, next := Code(g), nextId;
      outcome := dominators.RunOnFunc(g);
      if outcome.OutOfRange? {
        return;
      }
      varValStack, phiLval := map[], map[];
      GeneratePhi(g, f);
      ghost var f1, m := Code(g), dominators.idom;
      PlacedInput(f, f1, m, phiLval, dominators.domFrontier, next);
      RenameBegin(f1, m, phiLval);
      ghost var pr := Progress(map[], map[], map[], {}, {}, {});
      pr := Rename(g, f1, g.entry, pr);
      RenameResult(f, f1, Code(g), m, phiLval, pr, next);
      RenamedOnce(f1, m, phiLval, pr, Code(g));
      ResultIsSsa(f1, m, phiLval, pr, Code(g));
      BranchesSame(f, f1, m, phiLval, pr, Code(g));
    }
  }
}
