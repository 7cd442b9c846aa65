/** The functions that operations can be moved in: how their loops are entered, and what is in them. */
module LoopForm {
  import opened Cfg
  import opened NaturalLoops
  import opened Ir
  import opened Ssa

  /** The loops work with registers: no stack slot is read in them. */
  ghost predicate RegisterLoops(f: Func) {
    forall h, b, i | InLoop(f.graph, h, b) && b in f.body && 0 <= i < |f.body[b]| :: !f.body[b][i].Load?
  }

  ghost predicate Once(bs: seq<Block>, b: Block) {
    forall i, j | 0 <= i < |bs| && 0 <= j < |bs| && bs[i] == b && bs[j] == b :: i == j
  }

  ghost predicate PairsFrom(f: Func, h: Block, o: Block) {
    h in f.phis && forall k, v, u | 0 <= k < |f.phis[h]| && (v, u) in f.phis[h][k].pairs ::
                     u == o || (InLoop(f.graph, h, u) && Edge(f.graph, u, h))
  }

  ghost predicate LatchesBranchBack(g: Graph, h: Block) {
    forall l | IsLatch(g, h, l) :: l in g.succ && |g.succ[l]| > 0 && g.succ[l][0] == h
  }

  /** The loop is entered by an unconditional branch of o only, and its latches branch back first. */
  ghost predicate CleanEntry(f: Func, h: Block, o: Block) {
    && o in f.graph.blocks && h in f.graph.blocks && h != f.graph.entry && !InLoop(f.graph, h, o)
    && o in f.term && f.term[o] == Br(h) && (forall u | Edge(f.graph, u, h) :: u == o || InLoop(f.graph, h, u))
    && h in f.graph.pre && Once(f.graph.pre[h], o) && LatchesBranchBack(f.graph, h) && PairsFrom(f, h, o)
  }

  ghost predicate CleanLoops(f: Func) {
    forall h | IsHeader(f.graph, h) :: exists o :: CleanEntry(f, h, o)
  }

  /** The functions that operations are moved in. */
  ghost predicate Fit(f: Func) {
    WellFormedFunc(f) && LoopGraph(f.graph) && SsaForm(f) && RegisterLoops(f) && CleanLoops(f)
  }
}
