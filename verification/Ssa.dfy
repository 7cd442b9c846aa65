/** Static single assignment: every value has one definition, which comes before its uses on all paths. */
module Ssa {
  import opened Common
  import opened Cfg
  import opened Ir

  ghost predicate PhiInScope(f: Func, id: Id, b: Block) {
    exists c, k :: PhiAt(f, id, c, k) && Dominates(f.graph, c, b)
  }

  /** The value is defined before instruction i of b, on every path. */
  ghost predicate InScope(f: Func, v: Val, b: Block, i: int) {
    v.Res? ==> Available(f, v.id, b, i) || PhiInScope(f, v.id, b)
  }

  /** No value is defined twice. */
  ghost predicate IdsApart(f: Func) {
    && UniqueIds(f) && (forall id, b, i, c, j :: !(PhiAt(f, id, b, i) && DefinedAt(f, id, c, j)))
    && forall id, b, i, c, j | PhiAt(f, id, b, i) && PhiAt(f, id, c, j) :: b == c && i == j
  }

  ghost predicate BodyReady(f: Func, b: Block)
    requires b in f.body
  {
    forall i, v | 0 <= i < |f.body[b]| && v in Uses(f.body[b][i]) :: InScope(f, v, b, i)
  }

  ghost predicate TermReady(f: Func, b: Block)
    requires b in f.body && b in f.term
  {
    forall v | v in TermUses(f.term[b]) :: InScope(f, v, b, |f.body[b]|)
  }

  ghost predicate EdgeReady(f: Func, u: Block, b: Block)
    requires u in f.body && b in f.phis
  {
    forall k, v | 0 <= k < |f.phis[b]| && Incoming(f.phis[b][k].pairs, u) == Some(v) :: InScope(f, v, u, |f.body[u]|)
  }

  /** Definitions dominate their uses; a phi uses an operand at the end of the predecessor. */
  ghost predicate SsaForm(f: Func)
    requires WellFormedFunc(f)
  {
    && IdsApart(f)
    && (forall b | b in f.graph.blocks && Reachable(f.graph, b) :: BodyReady(f, b) && TermReady(f, b))
    && forall u, b | Edge(f.graph, u, b) && Reachable(f.graph, u) :: EdgeReady(f, u, b)
  }

  /** Pairs of phis are for predecessors that are reached. */
  ghost predicate PairsOnEdges(f: Func) {
    forall b, k, v, u | b in f.graph.blocks && b in f.phis && 0 <= k < |f.phis[b]| && (v, u) in f.phis[b][k].pairs :: Edge(f.graph, u, b) && Reachable(f.graph, u)
  }

  lemma EdgeEnds(f: Func, u: Block, b: Block)
    requires WellFormedFunc(f) && Edge(f.graph, u, b)
    ensures u in f.body && b in f.phis
  {
  }
}
