/** The tree that a partly computed idom map spells out, and what one update of
    the iterative dominator algorithm keeps of it.  Nothing here assumes a
    reducible graph or an order of the block list.

    The argument has three parts.
    - Sound: every strict dominator of v dominates the recorded idom of v.
    - Ranked: a block's rank is when it was first given an idom; chains of
      recorded idoms descend in rank, so they end at the entry.
    - Covered: after k passes, what a chain from v visits lies on every path
      of at most k + 1 blocks from the entry to v. */
module IdomTree {
  import opened Common
  import opened Cfg

  type IdomMap = map<Block, Option<Block>>
  type RankMap = map<Block, nat>

  ghost predicate Processed(m: IdomMap, v: Block) {
    v in m && m[v].Some?
  }

  /** a is reached from b by following recorded idoms, zero or more times. */
  ghost predicate Ancestor(m: IdomMap, t: RankMap, a: Block, b: Block)
    decreases if b in t then t[b] else 0
  {
    || a == b
    || (Processed(m, b) && b in t && m[b].value in t && t[m[b].value] < t[b]
        && Ancestor(m, t, a, m[b].value))
  }

  ghost predicate Ranked(g: Graph, m: IdomMap, t: RankMap) {
    && g.entry in g.blocks && g.entry in m && m[g.entry] == Some(g.entry) && g.entry in t && t[g.entry] == 0
    && (forall v | v in g.blocks && Processed(m, v) :: v in t && Reachable(g, v))
    && (forall v | v in g.blocks && Processed(m, v) && v != g.entry ::
          m[v].value in g.blocks && Processed(m, m[v].value) && t[m[v].value] < t[v])
  }

  /** Some predecessor had an idom before v did. */
  ghost predicate HasEarlierPred(g: Graph, m: IdomMap, t: RankMap, v: Block) {
    exists u :: Edge(g, u, v) && Processed(m, u) && u in t && v in t && t[u] < t[v]
  }

  ghost predicate Sound(g: Graph, m: IdomMap) {
    forall v, d | v in g.blocks && Processed(m, v) && v != g.entry && StrictlyDominates(g, d, v) ::
      Dominates(g, d, m[v].value)
  }

  ghost predicate EarlierPreds(g: Graph, m: IdomMap, t: RankMap) {
    forall v | v in g.blocks && Processed(m, v) && v != g.entry :: HasEarlierPred(g, m, t, v)
  }

  ghost predicate TreeInv(g: Graph, m: IdomMap, t: RankMap) {
    Ranked(g, m, t) && Sound(g, m) && EarlierPreds(g, m, t)
  }

  /** What the recorded idom of v should be, given the other blocks' idoms:
      common to the chains of all processed predecessors, and present as soon
      as one of them is. */
  ghost predicate Settled(g: Graph, m: IdomMap, t: RankMap, v: Block) {
    forall u | Edge(g, u, v) && Processed(m, u) :: Processed(m, v) && Ancestor(m, t, m[v].value, u)
  }

  ghost predicate OnPath(m: IdomMap, t: RankMap, v: Block, p: seq<Block>) {
    Processed(m, v) && forall a | Ancestor(m, t, a, v) :: a in p
  }

  /** Chains lie on all paths of at most k blocks, and k + 1 for v in done. */
  ghost predicate Covered(g: Graph, m: IdomMap, t: RankMap, k: nat, done: set<Block>) {
    forall v, p | PathTo(g, p, v) && |p| <= (if v in done then k + 1 else k) :: OnPath(m, t, v, p)
  }

  lemma ProcessedReachable(g: Graph, m: IdomMap, t: RankMap, b: Block)
    requires TreeInv(g, m, t) && b in g.blocks && Processed(m, b)
    ensures Reachable(g, b) && b in t
  {
  }

  lemma EarlierPred(g: Graph, m: IdomMap, t: RankMap, b: Block)
    requires TreeInv(g, m, t) && b in g.blocks && Processed(m, b) && b != g.entry
    ensures HasEarlierPred(g, m, t, b)
  {
  }

  lemma AncestorRank(m: IdomMap, t: RankMap, a: Block, b: Block)
    requires Ancestor(m, t, a, b) && b in t
    ensures a in t && t[a] <= t[b]
    ensures a != b ==> t[a] < t[b]
    decreases t[b]
  {
  }

  lemma AncestorTransitive(m: IdomMap, t: RankMap, a: Block, b: Block, c: Block)
    requires Ancestor(m, t, a, b) && Ancestor(m, t, b, c)
    ensures Ancestor(m, t, a, c)
    decreases if c in t then t[c] else 0
  {
    if b != c {
      AncestorTransitive(m, t, a, b, m[c].value);
    }
  }

  /** A chain that avoids v is the same after v's idom changes. */
  lemma {:induction false} AncestorElsewhere(m: IdomMap, m': IdomMap, t: RankMap, v: Block, a: Block, b: Block)
    requires v in m' && m' == m[v := m'[v]]
    requires !Ancestor(m, t, v, b)
    ensures Ancestor(m', t, a, b) == Ancestor(m, t, a, b)
    decreases if b in t then t[b] else 0
  {
    assert b != v;
    assert Processed(m, b) == Processed(m', b);
    if Processed(m, b) && b in t && m[b].value in t && t[m[b].value] < t[b] {
      AncestorElsewhere(m, m', t, v, a, m[b].value);
    }
  }

  /** A chain after v's idom changes: as before, or as before down to v. */
  lemma {:induction false} AncestorThrough(m: IdomMap, m': IdomMap, t: RankMap, v: Block, a: Block, b: Block)
    requires v in m' && m' == m[v := m'[v]]
    requires Ancestor(m', t, a, b)
    ensures Ancestor(m, t, a, b) || (Ancestor(m, t, v, b) && Ancestor(m', t, a, v))
    decreases if b in t then t[b] else 0
  {
    if a != b && b != v {
      AncestorThrough(m, m', t, v, a, m[b].value);
    }
  }

  /** Ranking a block that has no idom yet disturbs nothing. */
  lemma {:induction false} AncestorRankExtend(g: Graph, m: IdomMap, t: RankMap, t': RankMap, v: Block, a: Block, b: Block)
    requires Ranked(g, m, t) && !Processed(m, v) && v in t' && t' == t[v := t'[v]]
    requires b in g.blocks && Processed(m, b)
    ensures Ancestor(m, t', a, b) == Ancestor(m, t, a, b)
    decreases t[b]
  {
    if b != g.entry {
      AncestorRankExtend(g, m, t, t', v, a, m[b].value);
    }
  }

  lemma RankExtend(g: Graph, m: IdomMap, t: RankMap, t': RankMap, v: Block, k: nat, done: set<Block>)
    requires WellFormed(g) && TreeInv(g, m, t) && Covered(g, m, t, k, done)
    requires !Processed(m, v) && v in t' && t' == t[v := t'[v]]
    ensures TreeInv(g, m, t') && Covered(g, m, t', k, done)
  {
    hide WellFormed;
    forall w | w in g.blocks && Processed(m, w) && w != g.entry ensures HasEarlierPred(g, m, t', w) {
      var u :| Edge(g, u, w) && Processed(m, u) && u in t && w in t && t[u] < t[w];
      assert u in t' && w in t' && t'[u] < t'[w];
    }
    forall w, p | PathTo(g, p, w) && |p| <= (if w in done then k + 1 else k) ensures OnPath(m, t', w, p) {
      PathInBlocks(g, p, w);
      assert OnPath(m, t, w, p);
      forall a | Ancestor(m, t', a, w) ensures a in p {
        AncestorRankExtend(g, m, t, t', v, a, w);
      }
    }
  }

  /** The last edge of a path to a block other than the entry. */
  lemma LastStep(g: Graph, p: seq<Block>, v: Block) returns (u: Block, q: seq<Block>)
    requires WellFormed(g) && PathTo(g, p, v) && v != g.entry
    ensures q == p[..|p| - 1] && PathTo(g, q, u) && v in g.blocks && u in g.blocks && Edge(g, u, v)
  {
    PathInBlocks(g, p, v);
    u, q := p[|p| - 2], p[..|p| - 1];
    PathPrefix(g, p, v, |p| - 2);
    assert Edge(g, u, p[|p| - 2 + 1]);
  }

  /** The new idom chain of v lies on a path of at most k + 1 blocks. */
  lemma SetIdomOnPath(g: Graph, m: IdomMap, t: RankMap, v: Block, r: Block, k: nat, done: set<Block>, p: seq<Block>)
    requires WellFormed(g) && TreeInv(g, m, t) && Covered(g, m, t, k, done)
    requires v in g.blocks && v != g.entry && v in t
    requires r in g.blocks && Processed(m, r) && t[r] < t[v]
    requires forall u | Edge(g, u, v) && Processed(m, u) :: Ancestor(m, t, r, u)
    requires PathTo(g, p, v) && |p| <= k + 1
    ensures OnPath(m[v := Some(r)], t, v, p)
  {
    var m' := m[v := Some(r)];
    if Ancestor(m, t, v, r) {
      AncestorRank(m, t, v, r);
    }
    var u, q := LastStep(g, p, v);
    assert OnPath(m, t, u, q);
    hide TreeInv, Covered;
    forall a | Ancestor(m', t, a, v) ensures a in p {
      if a != v {
        assert Ancestor(m', t, a, r);
        AncestorElsewhere(m, m', t, v, a, r);
        AncestorTransitive(m, t, a, r, u);
        assert a in q;
      }
    }
  }

  lemma SetIdomCovered(g: Graph, m: IdomMap, t: RankMap, v: Block, r: Block, k: nat, done: set<Block>)
    requires WellFormed(g) && TreeInv(g, m, t) && Covered(g, m, t, k, done)
    requires v in g.blocks && v != g.entry && v in t
    requires r in g.blocks && Processed(m, r) && t[r] < t[v]
    requires forall u | Edge(g, u, v) && Processed(m, u) :: Ancestor(m, t, r, u)
    ensures Covered(g, m[v := Some(r)], t, k, done + {v})
  {
    var m' := m[v := Some(r)];
    forall w, p | PathTo(g, p, w) && |p| <= (if w in done + {v} then k + 1 else k) ensures OnPath(m', t, w, p) {
      if w == v {
        SetIdomOnPath(g, m, t, v, r, k, done, p);
      } else {
        assert OnPath(m, t, w, p);
        forall a | Ancestor(m', t, a, w) ensures a in p {
          AncestorThrough(m, m', t, v, a, w);
          if !Ancestor(m, t, a, w) {
            var i :| 0 <= i < |p| && p[i] == v;
            PathPrefix(g, p, w, i);
            SetIdomOnPath(g, m, t, v, r, k, done, p[..i + 1]);
            assert a in p[..i + 1];
          }
        }
      }
    }
  }

  lemma SetIdomSound(g: Graph, m: IdomMap, v: Block, r: Block)
    requires Sound(g, m) && forall d | StrictlyDominates(g, d, v) :: Dominates(g, d, r)
    ensures Sound(g, m[v := Some(r)])
  {
    var m' := m[v := Some(r)];
    forall w, d | w in g.blocks && Processed(m', w) && w != g.entry && StrictlyDominates(g, d, w)
      ensures Dominates(g, d, m'[w].value)
    {
      if w != v {
        assert Processed(m, w);
      }
    }
  }

  lemma SetIdomTree(g: Graph, m: IdomMap, t: RankMap, v: Block, r: Block)
    requires TreeInv(g, m, t)
    requires v in g.blocks && v != g.entry && v in t && Reachable(g, v)
    requires r in g.blocks && Processed(m, r) && t[r] < t[v]
    requires HasEarlierPred(g, m, t, v)
    requires forall d | StrictlyDominates(g, d, v) :: Dominates(g, d, r)
    ensures TreeInv(g, m[v := Some(r)], t)
  {
    hide Reachable, StrictlyDominates, Dominates, Edge;
    var m' := m[v := Some(r)];
    SetIdomSound(g, m, v, r);
    hide Sound;
    forall w | w in g.blocks && Processed(m', w) && w != g.entry ensures HasEarlierPred(g, m', t, w) {
      assert HasEarlierPred(g, m, t, w);
      var u :| Edge(g, u, w) && Processed(m, u) && u in t && w in t && t[u] < t[w];
      assert Processed(m', u);
    }
  }

  /** When no block would change any more, chains visit dominators only. */
  lemma {:induction false} SettledOnPath(g: Graph, m: IdomMap, t: RankMap, v: Block, p: seq<Block>)
    requires WellFormed(g) && TreeInv(g, m, t)
    requires forall w | w in g.blocks && w != g.entry :: Settled(g, m, t, w)
    requires PathTo(g, p, v)
    ensures v in g.blocks && OnPath(m, t, v, p)
    decreases |p|
  {
    PathInBlocks(g, p, v);
    if v != g.entry {
      var u, q := LastStep(g, p, v);
      SettledOnPath(g, m, t, u, q);
      assert Settled(g, m, t, v);
      forall a | Ancestor(m, t, a, v) ensures a in p {
        if a != v {
          AncestorTransitive(m, t, a, m[v].value, u);
          assert a in q;
        }
      }
    }
  }

  /** Chains that visit dominators only record immediate dominators. */
  lemma ChainIsIdom(g: Graph, m: IdomMap, t: RankMap, v: Block)
    requires WellFormed(g) && TreeInv(g, m, t) && v in g.blocks && v != g.entry && Processed(m, v)
    requires forall a | Ancestor(m, t, a, v) :: Dominates(g, a, v)
    ensures IsIdom(g, m[v].value, v)
  {
    assert Ancestor(m, t, m[v].value, v);
  }

  lemma SettledIsIdom(g: Graph, m: IdomMap, t: RankMap, v: Block)
    requires WellFormed(g) && TreeInv(g, m, t)
    requires forall w | w in g.blocks && w != g.entry :: Settled(g, m, t, w)
    requires Reachable(g, v)
    ensures v in g.blocks && Processed(m, v)
    ensures v != g.entry ==> IsIdom(g, m[v].value, v)
  {
    ReachableInBlocks(g, v);
    var q :| PathTo(g, q, v);
    SettledOnPath(g, m, t, v, q);
    if v != g.entry {
      forall a | Ancestor(m, t, a, v) ensures Dominates(g, a, v) {
        forall p | PathTo(g, p, v) ensures a in p {
          SettledOnPath(g, m, t, v, p);
        }
      }
      ChainIsIdom(g, m, t, v);
    }
  }

  /** Enough passes for the longest simple path make every record final. */
  lemma CoveredIsIdom(g: Graph, m: IdomMap, t: RankMap, k: nat, v: Block)
    requires WellFormed(g) && TreeInv(g, m, t) && Covered(g, m, t, k, {}) && k >= |Elements(g.blocks)|
    requires v in g.blocks && v != g.entry && Processed(m, v)
    ensures IsIdom(g, m[v].value, v)
  {
    forall a | Ancestor(m, t, a, v) ensures Dominates(g, a, v) {
      forall p | PathTo(g, p, v) ensures a in p {
        var q := SimplePath(g, p, v);
        PathInBlocks(g, q, v);
        NoDuplicatesBound(q, Elements(g.blocks));
        assert OnPath(m, t, v, q);
      }
    }
    ChainIsIdom(g, m, t, v);
  }
}
