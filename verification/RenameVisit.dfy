/** One visit of the renaming walk, step by step: what each step of the method does
    to the progress, the code and the value stacks together. */
module RenameVisit {
  import opened Cfg
  import opened IdomTree
  import opened DominatorAnalysis
  import opened Ir
  import opened Renaming
  import opened RenameProgress

  /** The rename method is about to visit bb: its dominators are scanned, its subtree
      is not, and the stacks are those of its immediate dominator. */
  ghost predicate Entering(f: Func, m: IdomMap, slotOf: map<Id, Slot>, pr: Progress, code: Func, bb: Block, st: StackMap) {
    && RenamingInput(f, m, slotOf) && InProgress(f, m, slotOf, pr, code)
    && bb in f.graph.blocks && Reachable(f.graph, bb)
    && Subtree(f.graph, bb) !! pr.scanned && pr.erased <= pr.scanned
    && (forall d | StrictlyDominates(f.graph, d, bb) :: d in pr.scanned)
    && StartsRight(f, m, pr.(start := pr.start[bb := StackTops(st)]), bb)
  }

  /** The method has visited exactly the blocks of s, and the stacks are as before. */
  ghost predicate Visited(f: Func, m: IdomMap, slotOf: map<Id, Slot>, pr0: Progress, pr: Progress, code: Func, s: set<Block>,
                          st0: StackMap, st: StackMap)
  {
    && InProgress(f, m, slotOf, pr, code)
    && pr.scanned == pr0.scanned + s && pr.erased == pr0.erased + s
    && EndsKept(pr0, pr)
    && SameStacks(st0, st)
  }

  ghost predicate EndsKept(pr0: Progress, pr: Progress) {
    forall b | b in pr0.scanned :: (b in pr0.end <==> b in pr.end) && (b in pr0.end ==> pr.end[b] == pr0.end[b])
  }

  // ----- pushing for the phis -----

  ghost predicate PhiPushes(slotOf: map<Id, Slot>, phis: seq<Phi>, k: nat, st0: StackMap, st: StackMap) {
    && k <= |phis|
    && StackTops(st) == PhiTops(slotOf, StackTops(st0), phis[..k])
    && Grown(slotOf, st0, st, phis[..k], [])
  }

  lemma PhiPushesStart(slotOf: map<Id, Slot>, phis: seq<Phi>, st: StackMap)
    ensures PhiPushes(slotOf, phis, 0, st, st)
  {
    assert phis[..0] == [];
  }

  lemma PhiPushesStep(slotOf: map<Id, Slot>, phis: seq<Phi>, k: nat, st0: StackMap, st: StackMap)
    requires PhiPushes(slotOf, phis, k, st0, st) && k < |phis| && phis[k].id in slotOf
    ensures PhiPushes(slotOf, phis, k + 1, st0, Push(st, slotOf[phis[k].id], Res(phis[k].id)))
  {
    assert phis[..k + 1][..k] == phis[..k];
    PushTops(st, slotOf[phis[k].id], Res(phis[k].id));
    GrownPhi(slotOf, st0, st, phis, k, Res(phis[k].id));
  }

  // ----- scanning the instructions -----

  /** Before instruction i of bb; st0 are the stacks on entry to the block. */
  ghost predicate ScanState(f: Func, m: IdomMap, slotOf: map<Id, Slot>, pr0: Progress, pr: Progress, code: Func,
                            bb: Block, i: nat, st0: StackMap, st: StackMap)
  {
    && Scanning(f, m, slotOf, pr, bb, i, StackTops(st))
    && BodiesAre(f, pr.subst, pr.erased, code) && PhisAreSoFar(f, slotOf, pr, code) && EdgesLinked(f, pr)
    && bb in f.phis && bb in f.body && i <= |f.body[bb]| && bb !in pr.erased
    && Grown(slotOf, st0, st, f.phis[bb], f.body[bb][..i])
    && pr0.scanned == pr.scanned && pr0.end == pr.end && pr0.erased == pr.erased && pr0.linked == pr.linked
  }

  lemma SubtreeSelf(g: Graph, b: Block)
    requires b in g.blocks && Reachable(g, b)
    ensures b in Subtree(g, b)
  {
  }

  /** The method sees the block's phis with the identities they had at the beginning. */
  lemma PhisSeen(f: Func, m: IdomMap, slotOf: map<Id, Slot>, pr: Progress, code: Func, b: Block)
    requires InProgress(f, m, slotOf, pr, code) && b in f.graph.blocks
    ensures b in f.phis && b in code.phis && |code.phis[b]| == |f.phis[b]|
    ensures forall k | 0 <= k < |f.phis[b]| :: code.phis[b][k].id == f.phis[b][k].id && f.phis[b][k].id in slotOf
  {
    assert PhisSoFar(f, slotOf, pr, b, code.phis[b]);
    forall k | 0 <= k < |f.phis[b]| ensures f.phis[b][k].id in slotOf {
      assert PairsSoFar(f, slotOf, pr, b, code.phis[b][k]);
    }
  }

  lemma ScanBegin(f: Func, m: IdomMap, slotOf: map<Id, Slot>, pr: Progress, code: Func, bb: Block, st0: StackMap, st: StackMap)
    requires Entering(f, m, slotOf, pr, code, bb, st0)
    requires bb in f.phis && PhiPushes(slotOf, f.phis[bb], |f.phis[bb]|, st0, st)
    ensures ScanState(f, m, slotOf, pr, pr.(start := pr.start[bb := StackTops(st0)]), code, bb, 0, st0, st)
  {
    hide RenamingInput, InProgress, StartsRight, Scanning, BodiesAre, PhisAreSoFar, EdgesLinked, Subtree, PhiTops, StackTops,
      PhiCount, StoreCount, StackOf, StrictlyDominates, Reachable;
    SubtreeSelf(f.graph, bb);
    ScanStart(f, m, slotOf, pr, code, bb, StackTops(st0));
    assert f.phis[bb][..|f.phis[bb]|] == f.phis[bb];
    BodyKnown(f, m, slotOf, pr, code, bb);
    assert f.body[bb][..0] == [];
  }

  lemma BodyKnown(f: Func, m: IdomMap, slotOf: map<Id, Slot>, pr: Progress, code: Func, b: Block)
    requires InProgress(f, m, slotOf, pr, code) && b in f.graph.blocks
    ensures b in f.body && b in code.body && b in f.term && b in code.term
  {
  }

  /** The instruction that the method finds at i. */
  lemma ScanSees(f: Func, m: IdomMap, slotOf: map<Id, Slot>, pr0: Progress, pr: Progress, code: Func, bb: Block, i: nat,
                 st0: StackMap, st: StackMap)
    requires ScanState(f, m, slotOf, pr0, pr, code, bb, i, st0, st)
    ensures bb in f.body && bb in code.body && |code.body[bb]| == |f.body[bb]|
    ensures i < |f.body[bb]| ==> code.body[bb][i] == ApplyInstr(pr.subst, f.body[bb][i])
  {
    hide ScannedOk, PhisAreSoFar, EdgesLinked, Grown, FinalBody;
  }

  lemma StateStore(f: Func, m: IdomMap, slotOf: map<Id, Slot>, pr0: Progress, pr: Progress, code: Func, bb: Block, i: nat,
                   st0: StackMap, st: StackMap)
    requires RenamingInput(f, m, slotOf) && ScanState(f, m, slotOf, pr0, pr, code, bb, i, st0, st)
    requires i < |f.body[bb]| && f.body[bb][i].Store?
    ensures ScanState(f, m, slotOf, pr0, pr, code, bb, i + 1, st0, Push(st, f.body[bb][i].slot, Apply(pr.subst, f.body[bb][i].rval)))
  {
    hide RenamingInput, Scanning, BodiesAre, PhisAreSoFar, EdgesLinked, Grown, StackTops, Push;
    var v := Apply(pr.subst, f.body[bb][i].rval);
    ScanStore(f, m, slotOf, pr, bb, i, StackTops(st));
    PushTops(st, f.body[bb][i].slot, v);
    GrownStore(slotOf, st0, st, f.phis[bb], f.body[bb], i, v);
  }

  lemma GrownOther(slotOf: map<Id, Slot>, st0: StackMap, st: StackMap, phis: seq<Phi>, instrs: seq<Instr>, i: nat)
    requires i < |instrs| && !instrs[i].Store? && Grown(slotOf, st0, st, phis, instrs[..i])
    ensures Grown(slotOf, st0, st, phis, instrs[..i + 1])
  {
    hide PhiCount, StackOf;
    CountOther(instrs, i);
  }

  /** Operations, and loads from a slot with an empty stack, stay as they are. */
  lemma StateKeep(f: Func, m: IdomMap, slotOf: map<Id, Slot>, pr0: Progress, pr: Progress, code: Func, bb: Block, i: nat,
                  st0: StackMap, st: StackMap)
    requires RenamingInput(f, m, slotOf) && ScanState(f, m, slotOf, pr0, pr, code, bb, i, st0, st)
    requires i < |f.body[bb]| && !f.body[bb][i].Store?
    requires f.body[bb][i].Load? ==> StackOf(st, f.body[bb][i].slot) == []
    ensures ScanState(f, m, slotOf, pr0, pr, code, bb, i + 1, st0, st)
  {
    hide RenamingInput, Scanning, BodiesAre, PhisAreSoFar, EdgesLinked, Grown;
    if f.body[bb][i].Load? {
      ScanLoadMiss(f, m, slotOf, pr, bb, i, StackTops(st));
    } else {
      ScanOp(f, m, slotOf, pr, bb, i, StackTops(st));
    }
    GrownOther(slotOf, st0, st, f.phis[bb], f.body[bb], i);
  }

  /** A load from a slot with a value on its stack is replaced in the whole function. */
  lemma StateLoad(f: Func, m: IdomMap, slotOf: map<Id, Slot>, pr0: Progress, pr: Progress, code: Func, code': Func, bb: Block, i: nat,
                  st0: StackMap, st: StackMap)
    requires RenamingInput(f, m, slotOf) && ScanState(f, m, slotOf, pr0, pr, code, bb, i, st0, st)
    requires i < |f.body[bb]| && f.body[bb][i].Load? && f.body[bb][i].slot in StackTops(st)
    requires code' == ReplaceIn(code, f.body[bb][i].id, StackTops(st)[f.body[bb][i].slot])
    ensures ScanState(f, m, slotOf, pr0, pr.(subst := pr.subst[f.body[bb][i].id := StackTops(st)[f.body[bb][i].slot]]),
                      code', bb, i + 1, st0, st)
  {
    hide RenamingInput, Scanning, BodiesAre, Grown, PairsSoFar, StackTops, SeenIn, ApplyBody, ApplyPhis, ApplyTerm, ApplyPairs, Unmentioned;
    var id, v := f.body[bb][i].id, StackTops(st)[f.body[bb][i].slot];
    ScanLoadHit(f, m, slotOf, pr, bb, i, StackTops(st));
    ReplaceBodies(f, pr.subst, pr.erased, code, id, v);
    ReplacePhis(f, slotOf, pr, code, id, v);
    GrownOther(slotOf, st0, st, f.phis[bb], f.body[bb], i);
    var pr' := pr.(subst := pr.subst[id := v]);
    forall b | b in f.graph.blocks ensures b in code'.phis && PhisSoFar(f, slotOf, pr', b, code'.phis[b]) {
      assert PhisSoFar(f, slotOf, pr, b, code.phis[b]);
      forall k | 0 <= k < |code.phis[b]| ensures PairsSoFar(f, slotOf, pr', b, code.phis[b][k]) {
        PairsKeep(f, slotOf, pr, pr', b, code.phis[b][k]);
      }
    }
  }

  /** The block is scanned. */
  lemma ScanFinish(f: Func, m: IdomMap, slotOf: map<Id, Slot>, pr0: Progress, pr: Progress, code: Func, bb: Block, i: nat,
                   st0: StackMap, st: StackMap)
    requires RenamingInput(f, m, slotOf) && bb in f.body && i == |f.body[bb]|
    requires ScanState(f, m, slotOf, pr0, pr, code, bb, i, st0, st)
    ensures Scanned(f, m, slotOf, pr0, pr.(end := pr.end[bb := StackTops(st)], scanned := pr.scanned + {bb}), code, bb, [], st0, st)
  {
    hide RenamingInput, BodiesAre, PhisAreSoFar, EdgesLinked, Grown, StackTops, Linking, ScannedOk, StartsRight, LoadNamed, SeenBefore, TopsAt;
    ScanEnd(f, m, slotOf, pr, code, bb, StackTops(st));
    assert f.body[bb][..i] == f.body[bb];
  }

  /** bb is scanned and has brought its pairs to the blocks of succs. */
  ghost predicate Scanned(f: Func, m: IdomMap, slotOf: map<Id, Slot>, pr0: Progress, pr: Progress, code: Func, bb: Block,
                          succs: seq<Block>, st0: StackMap, st: StackMap)
  {
    && Linking(f, m, slotOf, pr, code, bb, succs)
    && bb in f.phis && bb in f.body && Grown(slotOf, st0, st, f.phis[bb], f.body[bb])
    && bb !in pr0.scanned && bb in pr.end && pr.end[bb] == StackTops(st)
    && pr.scanned == pr0.scanned + {bb} && pr.erased == pr0.erased && EndsKept(pr0, pr)
  }

  /** The code while the phis of succ get bb's pairs: the first k have them. */
  ghost predicate PartLinked(slotOf: map<Id, Slot>, tops: Tops, before: seq<Phi>, now: seq<Phi>, bb: Block, k: nat) {
    && k <= |now| == |before|
    && (forall j | 0 <= j < k :: now[j] == LinkPhi(slotOf, tops, before[j], bb))
    && forall j | k <= j < |now| :: now[j] == before[j]
  }

  lemma ScannedLink(f: Func, m: IdomMap, slotOf: map<Id, Slot>, pr0: Progress, pr: Progress, code: Func, bb: Block, succs: seq<Block>,
                    st0: StackMap, st: StackMap, succ: Block, phis: seq<Phi>)
    requires Scanned(f, m, slotOf, pr0, pr, code, bb, succs, st0, st) && succ in f.graph.blocks && succ in code.phis
    requires PartLinked(slotOf, StackTops(st), code.phis[succ], phis, bb, |phis|)
    ensures Scanned(f, m, slotOf, pr0, pr.(linked := pr.linked + {(bb, succ)}), code.(phis := code.phis[succ := phis]), bb,
                    succs + [succ], st0, st)
  {
    hide Linking, Grown, StackTops;
    LinkSuccessor(f, m, slotOf, pr, code, bb, succs, succ, phis);
  }

  lemma LinkPhis(f: Func, m: IdomMap, slotOf: map<Id, Slot>, pr: Progress, code: Func, bb: Block, succs: seq<Block>, succ: Block)
    requires Linking(f, m, slotOf, pr, code, bb, succs) && succ in f.graph.blocks
    ensures succ in code.phis && forall k | 0 <= k < |code.phis[succ]| :: code.phis[succ][k].id in slotOf
  {
    assert PhisSoFar(f, slotOf, pr, succ, code.phis[succ]);
    forall k | 0 <= k < |code.phis[succ]| ensures code.phis[succ][k].id in slotOf {
      assert PairsSoFar(f, slotOf, pr, succ, code.phis[succ][k]);
    }
  }

  // ----- visiting the children -----

  /** Inside the visit of bb: the children outside rest are done; st1 are the stacks after scanning bb. */
  ghost predicate Between(f: Func, m: IdomMap, slotOf: map<Id, Slot>, pr0: Progress, pr: Progress, code: Func, bb: Block,
                          rest: set<Block>, st0: StackMap, st1: StackMap, st: StackMap)
  {
    var kids := Children(m, bb, f.graph.blocks);
    && rest <= kids
    && InProgress(f, m, slotOf, pr, code)
    && pr.scanned == pr0.scanned + {bb} + Forest(f.graph, kids - rest)
    && pr.erased == pr0.erased + Forest(f.graph, kids - rest)
    && EndsKept(pr0, pr) && bb in pr.end && pr.end[bb] == StackTops(st1)
    && bb in f.phis && bb in f.body && Grown(slotOf, st0, st1, f.phis[bb], f.body[bb])
    && SameStacks(st1, st)
  }

  lemma BetweenStart(f: Func, m: IdomMap, slotOf: map<Id, Slot>, pr0: Progress, pr: Progress, code: Func, bb: Block,
                     st0: StackMap, st: StackMap)
    requires bb in f.graph.blocks && bb in f.graph.succ
    requires Scanned(f, m, slotOf, pr0, pr, code, bb, f.graph.succ[bb], st0, st)
    ensures Between(f, m, slotOf, pr0, pr, code, bb, Children(m, bb, f.graph.blocks), st0, st, st)
  {
    hide Linking, Grown, InProgress, StackTops;
    LinkingDone(f, m, slotOf, pr, code, bb);
    var kids := Children(m, bb, f.graph.blocks);
    assert kids - kids == {};
    assert Forest(f.graph, {}) == {};
  }

  /** A child's subtree is unscanned; all its strict dominators are scanned. */
  lemma ChildApart(f: Func, m: IdomMap, bb: Block, rest: set<Block>, c: Block, scanned0: set<Block>, scanned: set<Block>)
    requires WellFormed(f.graph) && IdomCorrect(f.graph, m) && bb in f.graph.blocks && Reachable(f.graph, bb)
    requires rest <= Children(m, bb, f.graph.blocks) && c in rest
    requires Subtree(f.graph, bb) !! scanned0 && forall d | StrictlyDominates(f.graph, d, bb) :: d in scanned0
    requires scanned == scanned0 + {bb} + Forest(f.graph, Children(m, bb, f.graph.blocks) - rest)
    ensures Subtree(f.graph, c) !! scanned
    ensures forall d | StrictlyDominates(f.graph, d, c) :: d in scanned
  {
    hide WellFormed, IdomCorrect, Dominates, Reachable, Subtree, Forest;
    ChildrenOf(f.graph, m, bb, c);
    ForestGrowSets(f.graph, m, bb, rest, c);
    forall d | StrictlyDominates(f.graph, d, c) ensures d in scanned {
      assert Dominates(f.graph, d, bb);
      assert d != bb ==> StrictlyDominates(f.graph, d, bb);
    }
  }

  lemma EnterChild(f: Func, m: IdomMap, slotOf: map<Id, Slot>, pr0: Progress, pr: Progress, code0: Func, code: Func, bb: Block,
                   rest: set<Block>, st0: StackMap, st1: StackMap, st: StackMap, c: Block)
    requires Entering(f, m, slotOf, pr0, code0, bb, st0)
    requires Between(f, m, slotOf, pr0, pr, code, bb, rest, st0, st1, st) && c in rest
    ensures Entering(f, m, slotOf, pr, code, c, st)
    ensures |Subtree(f.graph, c)| < |Subtree(f.graph, bb)|
  {
    hide Grown, InProgress, StackTops, UniqueIds, UsesDominated, PhisFresh, PhisClosed, IdomCorrect, StrictlyDominates, Reachable, SameStacks,
      WellFormed, Subtree, Forest;
    ChildrenOf(f.graph, m, bb, c);
    ChildApart(f, m, bb, rest, c, pr0.scanned, pr.scanned);
    SameStacksTops(st1, st);
  }

  lemma LeaveChild(f: Func, m: IdomMap, slotOf: map<Id, Slot>, pr0: Progress, pr: Progress, pr': Progress, code0: Func, code: Func, code': Func,
                   bb: Block, rest: set<Block>, st0: StackMap, st1: StackMap, st: StackMap, st': StackMap, c: Block)
    requires Entering(f, m, slotOf, pr0, code0, bb, st0)
    requires Between(f, m, slotOf, pr0, pr, code, bb, rest, st0, st1, st) && c in rest
    requires Visited(f, m, slotOf, pr, pr', code', Subtree(f.graph, c), st, st')
    ensures Between(f, m, slotOf, pr0, pr', code', bb, rest - {c}, st0, st1, st')
  {
    hide Grown, InProgress, StackTops, StartsRight, UniqueIds, UsesDominated, PhisFresh, PhisClosed, IdomCorrect, Dominates, Reachable,
      Subtree, Forest, StrictlyDominates;
    ForestGrowSets(f.graph, m, bb, rest, c);
  }

  // ----- popping -----

  ghost predicate Popping(f: Func, m: IdomMap, slotOf: map<Id, Slot>, pr0: Progress, pr: Progress, code: Func, bb: Block, k: nat, i: nat,
                          st0: StackMap, st1: StackMap, st: StackMap)
  {
    && bb in f.graph.blocks && bb in f.phis && bb in f.body && k <= |f.phis[bb]| && i <= |f.body[bb]|
    && InProgress(f, m, slotOf, pr, code) && bb !in pr.erased
    && pr.scanned == pr0.scanned + Subtree(f.graph, bb)
    && pr.erased + {bb} == pr0.erased + Subtree(f.graph, bb)
    && EndsKept(pr0, pr)
    && Grown(slotOf, st0, st1, f.phis[bb], f.body[bb])
    && Shrunk(slotOf, st1, st, f.phis[bb][..k], f.body[bb][..i])
  }

  lemma PoppingStart(f: Func, m: IdomMap, slotOf: map<Id, Slot>, pr0: Progress, pr: Progress, code0: Func, code: Func, bb: Block,
                     st0: StackMap, st1: StackMap, st: StackMap)
    requires Entering(f, m, slotOf, pr0, code0, bb, st0)
    requires Between(f, m, slotOf, pr0, pr, code, bb, {}, st0, st1, st)
    ensures Popping(f, m, slotOf, pr0, pr, code, bb, 0, 0, st0, st1, st)
  {
    hide Grown, InProgress, StackTops, StartsRight, UniqueIds, UsesDominated, PhisFresh, PhisClosed, IdomCorrect, Dominates, Reachable,
      StrictlyDominates;
    var kids := Children(m, bb, f.graph.blocks);
    assert kids - {} == kids;
    SubtreeSplits(f.graph, m, bb);
    SubtreeSelf(f.graph, bb);
    assert f.phis[bb][..0] == [] && f.body[bb][..0] == [];
    forall x ensures StackOf(st, x) <= StackOf(st1, x) && |StackOf(st1, x)| == |StackOf(st, x)| + PhiCount(slotOf, [], x) + StoreCount([], x) {
      assert StackOf(st1, x) == StackOf(st, x);
    }
  }

  /** What the method finds while it pops: nothing has changed in bb but its operands. */
  lemma PopSees(f: Func, m: IdomMap, slotOf: map<Id, Slot>, pr0: Progress, pr: Progress, code: Func, bb: Block, k: nat, i: nat,
                st0: StackMap, st1: StackMap, st: StackMap)
    requires Popping(f, m, slotOf, pr0, pr, code, bb, k, i, st0, st1, st)
    ensures bb in f.phis && bb in code.phis && |code.phis[bb]| == |f.phis[bb]|
    ensures bb in f.body && bb in code.body && |code.body[bb]| == |f.body[bb]|
    ensures k < |f.phis[bb]| ==> code.phis[bb][k].id == f.phis[bb][k].id && f.phis[bb][k].id in slotOf
                                 && StackOf(st, slotOf[f.phis[bb][k].id]) != []
    ensures i < |f.body[bb]| ==> code.body[bb][i] == ApplyInstr(pr.subst, f.body[bb][i])
    ensures i < |f.body[bb]| && f.body[bb][i].Store? ==> StackOf(st, f.body[bb][i].slot) != []
  {
    hide Grown, Shrunk, EndsKept, ScannedOk, SubstOk, EdgesLinked, PhisSoFar, Subtree;
    PhisSeen(f, m, slotOf, pr, code, bb);
    PopPossible(slotOf, st0, st1, st, f.phis[bb], f.body[bb], k, i);
  }

  function Pop(st: StackMap, x: Slot): StackMap
    requires StackOf(st, x) != []
  {
    st[x := StackOf(st, x)[..|StackOf(st, x)| - 1]]
  }

  lemma PopPhi(f: Func, m: IdomMap, slotOf: map<Id, Slot>, pr0: Progress, pr: Progress, code: Func, bb: Block, k: nat,
               st0: StackMap, st1: StackMap, st: StackMap)
    requires Popping(f, m, slotOf, pr0, pr, code, bb, k, 0, st0, st1, st) && k < |f.phis[bb]| && f.phis[bb][k].id in slotOf
    requires StackOf(st, slotOf[f.phis[bb][k].id]) != []
    ensures Popping(f, m, slotOf, pr0, pr, code, bb, k + 1, 0, st0, st1, Pop(st, slotOf[f.phis[bb][k].id]))
  {
    hide Grown, InProgress, Shrunk, EndsKept, Subtree;
    assert f.body[bb][..0] == [];
    ShrunkPhi(slotOf, st1, st, f.phis[bb], k);
  }

  lemma PopStore(f: Func, m: IdomMap, slotOf: map<Id, Slot>, pr0: Progress, pr: Progress, code: Func, bb: Block, k: nat, i: nat,
                 st0: StackMap, st1: StackMap, st: StackMap)
    requires Popping(f, m, slotOf, pr0, pr, code, bb, k, i, st0, st1, st) && i < |f.body[bb]| && k == |f.phis[bb]|
    requires f.body[bb][i].Store? ==> StackOf(st, f.body[bb][i].slot) != []
    ensures Popping(f, m, slotOf, pr0, pr, code, bb, k, i + 1, st0, st1, if f.body[bb][i].Store? then Pop(st, f.body[bb][i].slot) else st)
  {
    hide Grown, InProgress, EndsKept, Subtree, StackOf, PhiCount;
    if f.body[bb][i].Store? {
      ShrunkStore(slotOf, st1, st, f.phis[bb][..k], f.body[bb], i);
    } else {
      CountOther(f.body[bb], i);
    }
  }

  lemma PoppingEnd(f: Func, m: IdomMap, slotOf: map<Id, Slot>, pr0: Progress, pr: Progress, code: Func, bb: Block, k: nat, i: nat,
                   st0: StackMap, st1: StackMap, st: StackMap)
    requires Popping(f, m, slotOf, pr0, pr, code, bb, k, i, st0, st1, st)
    requires k == |f.phis[bb]| && i == |f.body[bb]|
    ensures bb in code.body
    ensures Visited(f, m, slotOf, pr0, pr.(erased := pr.erased + {bb}), code.(body := code.body[bb := DropStores(code.body[bb])]),
                    Subtree(f.graph, bb), st0, st)
  {
    hide Grown, InProgress, Shrunk, Subtree, SameStacks;
    assert f.phis[bb][..k] == f.phis[bb] && f.body[bb][..i] == f.body[bb];
    EraseStores(f, m, slotOf, pr, code, bb);
    PopsRestore(slotOf, st0, st1, st, f.phis[bb], f.body[bb]);
  }

  lemma EnteringKnown(f: Func, m: IdomMap, slotOf: map<Id, Slot>, pr: Progress, code: Func, bb: Block, st: StackMap)
    requires Entering(f, m, slotOf, pr, code, bb, st)
    ensures RenamingInput(f, m, slotOf) && InProgress(f, m, slotOf, pr, code) && WellFormed(f.graph)
    ensures bb in f.graph.blocks && bb in f.graph.succ
  {
    hide StartsRight, InProgress, UniqueIds, UsesDominated, PhisFresh, PhisClosed, IdomCorrect;
  }

  lemma TreeKnown(g: Graph, m: IdomMap, tree: map<Block, set<Block>>, bb: Block)
    requires TreeCorrect(g, m, tree) && bb in g.blocks
    ensures bb in tree && tree[bb] == Children(m, bb, g.blocks)
  {
  }

  lemma ScannedPhis(f: Func, m: IdomMap, slotOf: map<Id, Slot>, pr0: Progress, pr: Progress, code: Func, bb: Block,
                    succs: seq<Block>, st0: StackMap, st: StackMap, succ: Block)
    requires Scanned(f, m, slotOf, pr0, pr, code, bb, succs, st0, st) && succ in f.graph.blocks
    ensures succ in code.phis && forall k | 0 <= k < |code.phis[succ]| :: code.phis[succ][k].id in slotOf
  {
    hide Linking, Grown, StackTops, EndsKept;
    LinkPhis(f, m, slotOf, pr, code, bb, succs, succ);
  }

  lemma PartLinkedStart(slotOf: map<Id, Slot>, tops: Tops, phis: seq<Phi>, bb: Block)
    ensures PartLinked(slotOf, tops, phis, phis, bb, 0)
  {
  }

  lemma PartLinkedStep(slotOf: map<Id, Slot>, tops: Tops, before: seq<Phi>, now: seq<Phi>, bb: Block, k: nat)
    requires PartLinked(slotOf, tops, before, now, bb, k) && k < |now|
    ensures k < |before| && now[k] == before[k]
    ensures PartLinked(slotOf, tops, before, now[k := LinkPhi(slotOf, tops, now[k], bb)], bb, k + 1)
  {
  }
}
