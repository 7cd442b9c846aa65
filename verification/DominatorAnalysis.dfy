/** The dominator analysis of one function: post-order numbers, immediate
    dominators, dominance frontiers, the dominator tree and its interval
    numbering.  A function may contain unreachable blocks. */
module DominatorAnalysis {
  import opened Common
  import opened Cfg
  import opened IdomTree

  /** How an analysis ends: std::map::at may throw on a null block. */
  datatype Outcome = Finished | OutOfRange

  /** What the post-order numbers are for: dominators have the larger ones. */
  ghost predicate PostOrderOk(g: Graph, post: map<Block, nat>) {
    && (forall b | Reachable(g, b) :: b in post)
    && (forall a, b | Reachable(g, a) && Reachable(g, b) && a != b :: post[a] != post[b])
    && (forall d, b | Reachable(g, b) && Dominates(g, d, b) :: d in post && post[b] <= post[d])
  }

  /** Exactly the reachable blocks have an idom; the entry is its own. */
  ghost predicate IdomCorrect(g: Graph, m: IdomMap) {
    && (forall b | b in g.blocks :: b in m && (Processed(m, b) <==> Reachable(g, b)))
    && g.entry in m && m[g.entry] == Some(g.entry)
    && forall b | b in g.blocks && Reachable(g, b) && b != g.entry :: IsIdom(g, m[b].value, b)
  }

  /** Dominance frontier by paths: x dominates a predecessor of b, but not b strictly. */
  ghost predicate InFrontier(g: Graph, x: Block, b: Block) {
    && Reachable(g, b) && b in g.pre
    && exists u :: u in g.pre[b] && Dominates(g, x, u) && !StrictlyDominates(g, x, b)
  }

  /** No edge leads from an unreachable block to a reachable one. */
  ghost predicate ReachableClosedUnderPred(g: Graph) {
    forall u, v | Edge(g, u, v) && Reachable(g, v) :: Reachable(g, u)
  }

  ghost function Subtree(g: Graph, a: Block): set<Block> {
    set b | b in g.blocks && Reachable(g, b) && Dominates(g, a, b)
  }

  ghost function DominatorSet(g: Graph, b: Block): set<Block> {
    set d | d in g.blocks && Dominates(g, d, b)
  }

  // ----- depth-first numbering -----

  /** The numbering and its vector mirror each other. */
  ghost predicate Numbered(post: map<Block, nat>, vec: seq<Block>) {
    && |vec| == |post|
    && (forall b | b in post :: post[b] < |vec| && vec[post[b]] == b)
  }

  /** Each finished block has a tree path; the rest of it is still open or finished later. */
  ghost predicate TreePaths(g: Graph, post: map<Block, nat>, done: set<Block>, tree: map<Block, seq<Block>>, open: set<Block>) {
    && done <= post.Keys
    && (forall b | b in done :: b in tree && PathTo(g, tree[b], b))
    && (forall b, w | b in done && w in tree[b] && w != b :: w in open || (w in done && post[b] < post[w]))
  }

  ghost predicate SuccessorsVisited(g: Graph, done: set<Block>, visited: set<Block>) {
    forall u, v | u in done && Edge(g, u, v) :: v in visited
  }

  /** The state of the search: visited blocks are done or on the path that is open. */
  ghost predicate DfsInv(g: Graph, post: map<Block, nat>, base: set<Block>, visited: set<Block>,
                         tree: map<Block, seq<Block>>, open: set<Block>)
  {
    && base !! visited && open <= visited <= Elements(g.blocks)
    && post.Keys == base + (visited - open)
    && TreePaths(g, post, visited - open, tree, open)
    && SuccessorsVisited(g, visited - open, visited)
  }

  ghost predicate Extends(m: map<Block, nat>, m': map<Block, nat>) {
    m.Keys <= m'.Keys && forall b | b in m :: m'[b] == m[b]
  }

  lemma ExtendsReflexive(m: map<Block, nat>)
    ensures Extends(m, m)
  {
  }

  lemma ExtendsTransitive(m: map<Block, nat>, m': map<Block, nat>, m'': map<Block, nat>)
    requires Extends(m, m') && Extends(m', m'')
    ensures Extends(m, m'')
  {
  }

  /** The size of the numbering, kept as a name so that proofs can hide it. */
  function Size(post: map<Block, nat>): nat {
    |post|
  }

  lemma NumberNext(post: map<Block, nat>, vec: seq<Block>, b: Block)
    requires Numbered(post, vec) && b !in post
    ensures Numbered(post[b := Size(post)], vec + [b]) && Extends(post, post[b := Size(post)])
  {
    assert |post[b := Size(post)]| == |post| + 1;
  }

  lemma NumberBound(post: map<Block, nat>, vec: seq<Block>)
    requires Numbered(post, vec)
    ensures forall b | b in post :: post[b] < |post|
  {
  }

  lemma NumberInjective(post: map<Block, nat>, vec: seq<Block>)
    requires Numbered(post, vec)
    ensures forall a, b | a in post && b in post && a != b :: post[a] != post[b]
  {
  }

  /** The blocks on the path are open, except for the last one, bb. */
  ghost predicate OpenPath(g: Graph, path: seq<Block>, open: set<Block>, bb: Block) {
    PathTo(g, path, bb) && forall w | w in path :: w == bb || w in open
  }

  lemma DfsEnter(g: Graph, post: map<Block, nat>, base: set<Block>, visited: set<Block>,
                 tree: map<Block, seq<Block>>, path: seq<Block>, open: set<Block>, bb: Block)
    requires DfsInv(g, post, base, visited, tree, open)
    requires bb in g.blocks && bb !in visited && Disjoint(base, g.blocks)
    ensures DfsInv(g, post, base, visited + {bb}, tree, open + {bb}) && bb !in open
  {
    assert visited + {bb} - (open + {bb}) == visited - open;
  }

  ghost function Unvisited(g: Graph, visited: set<Block>): nat {
    |Elements(g.blocks) - visited|
  }

  lemma UnvisitedShrinks(g: Graph, visited: set<Block>, visited': set<Block>, b: Block)
    requires b in g.blocks && b !in visited && visited + {b} <= visited'
    ensures Unvisited(g, visited') < Unvisited(g, visited)
  {
    assert b in Elements(g.blocks) - visited;
    ProperSubsetSmaller(Elements(g.blocks) - visited', Elements(g.blocks) - visited);
  }

  ghost predicate Disjoint(base: set<Block>, blocks: seq<Block>) {
    forall b | b in blocks :: b !in base
  }

  lemma SuccessorsKnown(g: Graph, b: Block)
    requires WellFormed(g) && b in g.blocks
    ensures b in g.succ && forall i | 0 <= i < |g.succ[b]| :: g.succ[b][i] in g.blocks
  {
    forall i | 0 <= i < |g.succ[b]| ensures g.succ[b][i] in g.blocks {
      var v := g.succ[b][i];
      assert v in g.succ[b];
    }
  }

  lemma DfsDescend(g: Graph, path: seq<Block>, open: set<Block>, bb: Block, succ: Block)
    requires OpenPath(g, path, open, bb) && bb in g.blocks && bb in g.succ && succ in g.succ[bb]
    ensures OpenPath(g, path + [succ], open + {bb}, succ)
  {
    PathExtend(g, path, bb, succ);
  }

  lemma DfsFinish(g: Graph, post: map<Block, nat>, n: nat, base: set<Block>, visited: set<Block>,
                  tree: map<Block, seq<Block>>, path: seq<Block>, open: set<Block>, bb: Block)
    requires DfsInv(g, post, base, visited, tree, open + {bb})
    requires bb !in open && bb in visited
    requires OpenPath(g, path, open, bb)
    requires Disjoint(base, g.blocks)
    requires forall b | b in post :: post[b] < n
    requires bb in g.succ && forall v | v in g.succ[bb] :: v in visited
    ensures bb !in post && DfsInv(g, post[bb := n], base, visited, tree[bb := path], open)
  {
    var done := visited - (open + {bb});
    assert visited - open == done + {bb};
    var post', tree' := post[bb := n], tree[bb := path];
    assert TreePaths(g, post', done + {bb}, tree', open) by {
      forall b, w | b in done + {bb} && w in tree'[b] && w != b
        ensures w in open || (w in done + {bb} && post'[b] < post'[w])
      {
        if b != bb {
          assert w in open + {bb} || (w in done && post[b] < post[w]);
        }
      }
    }
  }

  lemma DfsLeave(g: Graph, start: map<Block, nat>, post: map<Block, nat>, vec: seq<Block>, base: set<Block>,
                 visited: set<Block>, tree: map<Block, seq<Block>>, path: seq<Block>, open: set<Block>, bb: Block)
    requires DfsInv(g, post, base, visited, tree, open + {bb})
    requires bb !in open && bb in visited
    requires OpenPath(g, path, open, bb)
    requires Disjoint(base, g.blocks)
    requires Numbered(post, vec) && Extends(start, post)
    requires bb in g.succ && forall i | 0 <= i < |g.succ[bb]| :: g.succ[bb][i] in visited
    ensures DfsInv(g, post[bb := Size(post)], base, visited, tree[bb := path], open)
    ensures Numbered(post[bb := Size(post)], vec + [bb]) && Extends(start, post[bb := Size(post)])
  {
    NumberBound(post, vec);
    DfsFinish(g, post, |post|, base, visited, tree, path, open, bb);
    NumberNext(post, vec, bb);
  }

  lemma {:induction false} PathVisited(g: Graph, visited: set<Block>, p: seq<Block>, b: Block)
    requires SuccessorsVisited(g, visited, visited) && g.entry in visited
    requires PathTo(g, p, b)
    ensures b in visited
    decreases |p|
  {
    if |p| > 1 {
      PathPrefix(g, p, b, |p| - 2);
      PathVisited(g, visited, p[..|p| - 1], p[|p| - 2]);
      assert Edge(g, p[|p| - 2], p[|p| - 2 + 1]);
    }
  }

  lemma DfsStart(g: Graph, post: map<Block, nat>)
    requires WellFormed(g)
    ensures DfsInv(g, post, post.Keys, {}, map[], {}) && OpenPath(g, [g.entry], {}, g.entry)
  {
    var none: set<Block> := {};
    assert none - none == none;
  }

  lemma DfsComplete(g: Graph, post: map<Block, nat>, base: set<Block>, visited: set<Block>,
                    tree: map<Block, seq<Block>>)
    requires WellFormed(g) && DfsInv(g, post, base, visited, tree, {})
    requires forall a, b | a in post && b in post && a != b :: post[a] != post[b]
    requires g.entry in visited
    ensures PostOrderOk(g, post) && post.Keys == base + visited
    ensures visited == set b | b in g.blocks && Reachable(g, b)
  {
    assert visited - {} == visited;
    forall b ensures b in visited <==> Reachable(g, b) {
      if Reachable(g, b) {
        var p :| PathTo(g, p, b);
        PathVisited(g, visited, p, b);
      }
      if b in visited {
        assert b in tree && PathTo(g, tree[b], b);
      }
    }
    forall b | Reachable(g, b) ensures b in g.blocks {
      ReachableInBlocks(g, b);
    }
    forall d, b | Reachable(g, b) && Dominates(g, d, b) ensures d in post && post[b] <= post[d] {
      assert PathTo(g, tree[b], b);
      assert d in tree[b];
    }
  }

  // ----- the idom fixpoint -----

  /** Two blocks on the way up from b1 and b2, past no common dominator. */
  ghost predicate Climbing(g: Graph, m: IdomMap, t: RankMap, b1: Block, b2: Block, x: Block, y: Block) {
    && x in g.blocks && y in g.blocks && Processed(m, x) && Processed(m, y)
    && Ancestor(m, t, x, b1) && Ancestor(m, t, y, b2)
    && forall d | Dominates(g, d, b1) && Dominates(g, d, b2) :: Dominates(g, d, x) && Dominates(g, d, y)
  }

  lemma ClimbSwap(g: Graph, m: IdomMap, t: RankMap, b1: Block, b2: Block, x: Block, y: Block)
    requires Climbing(g, m, t, b1, b2, x, y)
    ensures Climbing(g, m, t, b2, b1, y, x)
  {
  }

  /** The block with the smaller number may move up: it is no common dominator. */
  lemma ClimbStep(g: Graph, post: map<Block, nat>, m: IdomMap, t: RankMap, b1: Block, b2: Block, x: Block, y: Block)
    requires WellFormed(g) && TreeInv(g, m, t) && PostOrderOk(g, post)
    requires Climbing(g, m, t, b1, b2, x, y)
    requires x in post && y in post && post[x] < post[y]
    ensures x in m && m[x].Some? && x in t && m[x].value in t && t[m[x].value] < t[x] && m[x].value in post
    ensures Climbing(g, m, t, b1, b2, m[x].value, y)
  {
    EntryReachable(g);
    assert Dominates(g, g.entry, y);
    assert x != g.entry;
    assert Ancestor(m, t, m[x].value, x);
    AncestorTransitive(m, t, m[x].value, x, b1);
    forall d | Dominates(g, d, b1) && Dominates(g, d, b2) ensures Dominates(g, d, m[x].value) {
      assert d != x;
      assert StrictlyDominates(g, d, x);
    }
  }

  /** The state of one block's update: the predecessors in seen are intersected into r. */
  ghost predicate Intersecting(g: Graph, m: IdomMap, t: RankMap, bb: Block, seen: seq<Block>, r: Option<Block>) {
    && (r.None? ==> forall u | u in seen :: !Processed(m, u))
    && (r.Some? ==>
          && r.value in g.blocks && Processed(m, r.value)
          && (exists u :: u in seen && Processed(m, u))
          && (forall u | u in seen && Processed(m, u) :: Ancestor(m, t, r.value, u))
          && (forall d | StrictlyDominates(g, d, bb) :: Dominates(g, d, r.value)))
  }

  lemma IntersectingNone(g: Graph, m: IdomMap, t: RankMap, bb: Block)
    ensures Intersecting(g, m, t, bb, [], None)
  {
  }

  lemma IntersectingSkip(g: Graph, m: IdomMap, t: RankMap, bb: Block, seen: seq<Block>, u: Block, r: Option<Block>)
    requires Intersecting(g, m, t, bb, seen, r) && !Processed(m, u)
    ensures Intersecting(g, m, t, bb, seen + [u], r)
  {
    hide Ancestor, StrictlyDominates, Dominates;
    if r.Some? {
      var w :| w in seen && Processed(m, w);
      assert w in seen + [u];
    }
  }

  lemma IntersectingIn(g: Graph, m: IdomMap, t: RankMap, bb: Block, seen: seq<Block>, r: Option<Block>)
    requires Intersecting(g, m, t, bb, seen, r)
    ensures r.Some? ==> r.value in g.blocks && Processed(m, r.value)
  {
  }

  lemma IntersectingFirst(g: Graph, m: IdomMap, t: RankMap, bb: Block, seen: seq<Block>, u: Block)
    requires Intersecting(g, m, t, bb, seen, None)
    requires u in g.blocks && Processed(m, u) && Edge(g, u, bb)
    ensures Intersecting(g, m, t, bb, seen + [u], Some(u))
  {
    assert u in seen + [u];
    forall d | StrictlyDominates(g, d, bb) ensures Dominates(g, d, u) {
      DominatesPredecessor(g, d, u, bb);
    }
  }

  lemma IntersectingNext(g: Graph, m: IdomMap, t: RankMap, bb: Block, seen: seq<Block>, r: Block, u: Block, r': Block)
    requires Intersecting(g, m, t, bb, seen, Some(r))
    requires u in g.blocks && Processed(m, u) && Edge(g, u, bb)
    requires Climbing(g, m, t, r, u, r', r')
    ensures Intersecting(g, m, t, bb, seen + [u], Some(r'))
  {
    assert u in seen + [u];
    forall w | w in seen + [u] && Processed(m, w) ensures Ancestor(m, t, r', w) {
      if w in seen {
        AncestorTransitive(m, t, r', r, w);
      }
    }
    forall d | StrictlyDominates(g, d, bb) ensures Dominates(g, d, r') {
      DominatesPredecessor(g, d, u, bb);
    }
  }

  /** Ranks are handed out in increasing order. */
  ghost predicate RanksBelow(t: RankMap, n: nat) {
    forall b | b in t :: t[b] < n
  }

  /** A block that gets its first idom is ranked after all others. */
  lemma RankFor(g: Graph, m: IdomMap, t: RankMap, n: nat, k: nat, done: set<Block>, bb: Block, r: Block)
    returns (t': RankMap)
    requires WellFormed(g) && TreeInv(g, m, t) && Covered(g, m, t, k, done) && RanksBelow(t, n)
    requires bb in g.blocks && bb != g.entry && bb in g.pre
    requires Intersecting(g, m, t, bb, g.pre[bb], Some(r))
    ensures TreeInv(g, m, t') && Covered(g, m, t', k, done) && RanksBelow(t', n + 1)
    ensures Reachable(g, bb) && HasEarlierPred(g, m, t', bb)
    ensures bb in t' && r in t' && t'[r] < t'[bb]
    ensures forall u | Edge(g, u, bb) && Processed(m, u) :: Ancestor(m, t', r, u)
    ensures Processed(m, bb) ==> t' == t
  {
    var u :| u in g.pre[bb] && Processed(m, u);
    assert Edge(g, u, bb);
    hide WellFormed;
    ProcessedReachable(g, m, t, u);
    ProcessedReachable(g, m, t, r);
    SuccReachable(g, u, bb);
    hide Covered, Dominates, StrictlyDominates, Reachable, Sound, EarlierPreds;
    if Processed(m, bb) {
      t' := t;
      EarlierPred(g, m, t, bb);
      var y :| Edge(g, y, bb) && Processed(m, y) && y in t && bb in t && t[y] < t[bb];
      AncestorRank(m, t, r, y);
    } else {
      t' := t[bb := n];
      RankExtend(g, m, t, t', bb, k, done);
      assert Edge(g, u, bb) && Processed(m, u) && u in t' && bb in t' && t'[u] < t'[bb];
      forall w | Edge(g, w, bb) && Processed(m, w) ensures Ancestor(m, t', r, w) {
        AncestorRankExtend(g, m, t, t', bb, r, w);
      }
    }
  }

  /** What one block's update keeps, whether or not it changes the record. */
  lemma UpdateKeeps(g: Graph, m: IdomMap, t: RankMap, n: nat, k: nat, done: set<Block>, bb: Block, r: Option<Block>)
    returns (t': RankMap)
    requires WellFormed(g) && TreeInv(g, m, t) && Covered(g, m, t, k, done) && RanksBelow(t, n)
    requires bb in g.blocks && bb != g.entry && bb in m && bb in g.pre
    requires Intersecting(g, m, t, bb, g.pre[bb], r)
    ensures TreeInv(g, m[bb := r], t') && Covered(g, m[bb := r], t', k, done + {bb}) && RanksBelow(t', n + 1)
    ensures r == m[bb] ==> t' == t && Settled(g, m, t, bb)
  {
    hide TreeInv, Covered, Dominates, Reachable;
    if r.None? {
      UpdateKeepsNothing(g, m, t, k, done, bb);
      assert m[bb := r] == m;
      t' := t;
    } else {
      t' := RankFor(g, m, t, n, k, done, bb, r.value);
      hide WellFormed;
      SetIdomTree(g, m, t', bb, r.value);
      SetIdomCovered(g, m, t', bb, r.value, k, done);
    }
  }

  lemma UpdateKeepsNothing(g: Graph, m: IdomMap, t: RankMap, k: nat, done: set<Block>, bb: Block)
    requires WellFormed(g) && TreeInv(g, m, t) && Covered(g, m, t, k, done)
    requires bb in g.blocks && bb != g.entry && bb in m
    requires Intersecting(g, m, t, bb, g.pre[bb], None)
    ensures m[bb].None? && Settled(g, m, t, bb) && Covered(g, m, t, k, done + {bb})
  {
    assert !Processed(m, bb) by {
      assert Processed(m, bb) ==> HasEarlierPred(g, m, t, bb);
    }
    forall p | PathTo(g, p, bb) ensures |p| > k + 1 {
      var u, q := LastStep(g, p, bb);
      assert |q| <= k ==> OnPath(m, t, u, q);
    }
  }

  /** Once k reaches the number of blocks, an update changes nothing. */
  lemma UpdateIdle(g: Graph, m: IdomMap, t: RankMap, t': RankMap, k: nat, done: set<Block>, bb: Block, r: Option<Block>)
    requires WellFormed(g) && TreeInv(g, m, t) && Covered(g, m, t, k, done) && k >= |Elements(g.blocks)|
    requires bb in g.blocks && bb != g.entry && bb in m && bb in g.pre
    requires Intersecting(g, m, t, bb, g.pre[bb], r)
    requires TreeInv(g, m[bb := r], t') && Covered(g, m[bb := r], t', k, done + {bb})
    ensures r == m[bb]
  {
    hide WellFormed, TreeInv, Dominates, IsIdom, Edge;
    if r.None? {
      UpdateKeepsNothing(g, m, t, k, done, bb);
    } else {
      ProcessedReachable(g, m[bb := r], t', bb);
      var p :| PathTo(g, p, bb);
      var q := SimplePath(g, p, bb);
      PathInBlocks(g, q, bb);
      NoDuplicatesBound(q, Elements(g.blocks));
      assert OnPath(m, t, bb, q);
      assert Covered(g, m, t, k, {}) && Covered(g, m[bb := r], t', k, {});
      CoveredIsIdom(g, m, t, k, bb);
      CoveredIsIdom(g, m[bb := r], t', k, bb);
      IdomUnique(g, r.value, m[bb].value, bb);
    }
  }

  ghost function BlockCount(g: Graph): nat {
    |Elements(g.blocks)|
  }

  /** The state of a pass that has visited the blocks in seen. */
  ghost predicate PassState(g: Graph, m: IdomMap, t: RankMap, n: nat, k: nat, done: set<Block>, seen: seq<Block>, changed: bool) {
    && TreeInv(g, m, t) && Covered(g, m, t, k, done) && RanksBelow(t, n)
    && (forall b | b in g.blocks :: b in m)
    && (forall b | b in seen && b != g.entry :: b in done && (!changed ==> Settled(g, m, t, b)))
    && (k >= BlockCount(g) ==> !changed)
  }

  lemma PassStart(g: Graph, m: IdomMap)
    requires WellFormed(g) && g.entry in m && m[g.entry] == Some(g.entry)
    requires forall b | b in g.blocks && b != g.entry :: b in m && m[b].None?
    ensures PassState(g, m, map[g.entry := 0], 1, 1, {}, [], false) && BlockCount(g) > 0
  {
    EntryReachable(g);
    assert g.entry in Elements(g.blocks);
  }

  lemma PassStep(g: Graph, m: IdomMap, t: RankMap, n: nat, k: nat, done: set<Block>, seen: seq<Block>, changed: bool,
                 bb: Block, r: Option<Block>)
    returns (t': RankMap)
    requires WellFormed(g) && PassState(g, m, t, n, k, done, seen, changed)
    requires bb in g.blocks && bb != g.entry && bb in g.pre && bb in m
    requires Intersecting(g, m, t, bb, g.pre[bb], r)
    ensures PassState(g, m[bb := r], t', n + 1, k, done + {bb}, seen + [bb], changed || r != m[bb])
  {
    hide WellFormed, TreeInv, Covered, Intersecting, Settled;
    t' := UpdateKeeps(g, m, t, n, k, done, bb, r);
    if k >= BlockCount(g) {
      UpdateIdle(g, m, t, t', k, done, bb, r);
    }
    if r == m[bb] {
      assert m[bb := r] == m;
    }
  }

  lemma PassUnfold(g: Graph, m: IdomMap, t: RankMap, n: nat, k: nat, done: set<Block>, seen: seq<Block>, changed: bool)
    requires PassState(g, m, t, n, k, done, seen, changed)
    ensures TreeInv(g, m, t) && forall b | b in g.blocks :: b in m
  {
  }

  lemma PassSkip(g: Graph, m: IdomMap, t: RankMap, n: nat, k: nat, done: set<Block>, seen: seq<Block>, changed: bool)
    requires PassState(g, m, t, n, k, done, seen, changed)
    ensures PassState(g, m, t, n, k, done, seen + [g.entry], changed)
  {
  }

  /** A pass over all blocks lengthens the paths that are accounted for. */
  lemma PassEnd(g: Graph, m: IdomMap, t: RankMap, n: nat, k: nat, done: set<Block>, changed: bool)
    requires WellFormed(g) && PassState(g, m, t, n, k, done, g.blocks, changed)
    ensures PassState(g, m, t, n, k + 1, {}, [], false)
    ensures !changed ==> IdomCorrect(g, m)
    ensures changed ==> k < BlockCount(g)
  {
    forall v, p | PathTo(g, p, v) && |p| <= k + 1 ensures OnPath(m, t, v, p) {
      PathInBlocks(g, p, v);
    }
    if !changed {
      forall b | b in g.blocks && Reachable(g, b)
        ensures Processed(m, b) && (b != g.entry ==> IsIdom(g, m[b].value, b))
      {
        SettledIsIdom(g, m, t, b);
      }
    }
  }

  // ----- facts about correct idoms -----

  /** The dominators of b are b itself and those of its immediate dominator. */
  lemma IdomStep(g: Graph, i: Block, b: Block)
    requires Reachable(g, b) && IsIdom(g, i, b)
    ensures Reachable(g, i) && !Dominates(g, b, i)
    ensures forall x :: Dominates(g, x, b) <==> x == b || Dominates(g, x, i)
  {
    DominatorReachable(g, i, b);
    if Dominates(g, b, i) {
      DominatesAntisymmetric(g, b, i);
    }
    forall x ensures Dominates(g, x, b) <==> x == b || Dominates(g, x, i) {
      if x == b {
        DominatesReflexive(g, b);
      } else if Dominates(g, x, i) {
        DominatesTransitive(g, x, i, b);
      }
    }
  }

  lemma IdomDepth(g: Graph, i: Block, b: Block)
    requires WellFormed(g) && Reachable(g, b) && IsIdom(g, i, b)
    ensures DominatorSet(g, i) < DominatorSet(g, b) && |DominatorSet(g, i)| < |DominatorSet(g, b)|
  {
    IdomStep(g, i, b);
    ReachableInBlocks(g, b);
    assert b in DominatorSet(g, b) && b !in DominatorSet(g, i);
    ProperSubsetSmaller(DominatorSet(g, i), DominatorSet(g, b));
  }

  lemma ProperSubsetSmaller<T>(a: set<T>, b: set<T>)
    requires a < b
    ensures |a| < |b|
  {
    var x :| x in b && x !in a;
    assert a + {x} <= b && |a + {x}| == |a| + 1;
    assert |b| == |b - (a + {x})| + |a + {x}|;
  }

  /** Whatever a node dominates strictly lies below one of its tree children. */
  lemma {:induction false} BelowSomeChild(g: Graph, m: IdomMap, a: Block, b: Block) returns (c: Block)
    requires WellFormed(g) && IdomCorrect(g, m)
    requires Reachable(g, b) && StrictlyDominates(g, a, b)
    ensures c in g.blocks && Reachable(g, c) && c != g.entry && m[c] == Some(a) && Dominates(g, c, b)
    decreases |DominatorSet(g, b)|
  {
    ReachableInBlocks(g, b);
    EntryReachable(g);
    var i := m[b].value;
    IdomStep(g, i, b);
    if i == a {
      c := b;
      DominatesReflexive(g, b);
    } else {
      IdomDepth(g, i, b);
      c := BelowSomeChild(g, m, a, i);
      DominatesTransitive(g, c, i, b);
    }
  }

  /** The subtrees of two children of a node are disjoint. */
  lemma SiblingsDisjoint(g: Graph, m: IdomMap, a: Block, c: Block, d: Block, b: Block)
    requires WellFormed(g) && IdomCorrect(g, m)
    requires c in g.blocks && Reachable(g, c) && c != g.entry && m[c] == Some(a)
    requires d in g.blocks && Reachable(g, d) && d != g.entry && m[d] == Some(a)
    requires Reachable(g, b) && Dominates(g, c, b) && Dominates(g, d, b)
    ensures c == d
  {
    DominatorsLinear(g, c, d, b);
    IdomStep(g, a, c);
    IdomStep(g, a, d);
  }

  // ----- dominance frontiers -----

  /** What the walk from predecessor u adds b to: u's dominators below b's idom.
      An unreachable b has only unreachable predecessors, and the walk stops after one. */
  ghost predicate Contributes(g: Graph, m: IdomMap, x: Block, b: Block, u: Block)
    requires b in m
  {
    if Processed(m, b) then Dominates(g, x, u) && !Dominates(g, x, m[b].value) else x == u
  }

  /** The frontier map when the walks for the edges (predecessor, block) are complete. */
  ghost predicate FrontierOf(g: Graph, m: IdomMap, df: map<Block, set<Block>>, edges: set<(Block, Block)>) {
    && (forall b | b in g.blocks :: b in m && b in df)
    && (forall e | e in edges :: e.1 in g.blocks)
    && (forall x, b | x in g.blocks && b in df[x] :: b in g.blocks)
    && forall x, b | x in g.blocks && b in g.blocks ::
      b in df[x] <==> exists u :: (u, b) in edges && Contributes(g, m, x, b, u)
  }

  /** A walk adds bb to the frontier of every contributing block, and nothing else. */
  ghost predicate Walked(g: Graph, m: IdomMap, df: map<Block, set<Block>>, df': map<Block, set<Block>>, bb: Block, u: Block)
    requires bb in m
  {
    forall x | x in g.blocks :: x in df && x in df' && df'[x] == df[x] + if Contributes(g, m, x, bb, u) then {bb} else {}
  }

  /** A walk from u that has reached the block runner. */
  ghost predicate Walking(g: Graph, m: IdomMap, df: map<Block, set<Block>>, df': map<Block, set<Block>>, bb: Block, u: Block,
                          runner: Option<Block>)
    requires bb in m
  {
    && (forall x | x in g.blocks :: x in df && x in df')
    && u in df
    && if !Reachable(g, u) then
         (runner == Some(u) && df' == df) || (runner.None? && df' == df[u := df[u] + {bb}])
       else
         && runner.Some? && Processed(m, bb) && Reachable(g, runner.value)
         && Dominates(g, runner.value, u) && Dominates(g, m[bb].value, runner.value)
         && forall x | x in g.blocks ::
           df'[x] == df[x] + if Dominates(g, x, u) && !Dominates(g, x, runner.value) then {bb} else {}
  }

  lemma WalkStart(g: Graph, m: IdomMap, df: map<Block, set<Block>>, bb: Block, u: Block)
    requires WellFormed(g) && IdomCorrect(g, m) && bb in g.blocks && Edge(g, u, bb)
    requires forall x | x in g.blocks :: x in df
    ensures Walking(g, m, df, df, bb, u, Some(u))
  {
    EntryReachable(g);
    if Reachable(g, u) {
      SuccReachable(g, u, bb);
      DominatesReflexive(g, u);
      if bb != g.entry {
        DominatesPredecessor(g, m[bb].value, u, bb);
      }
    }
  }

  lemma WalkStep(g: Graph, m: IdomMap, df: map<Block, set<Block>>, df': map<Block, set<Block>>, bb: Block, u: Block, r: Block)
    requires WellFormed(g) && IdomCorrect(g, m) && bb in g.blocks && u in g.blocks
    requires Walking(g, m, df, df', bb, u, Some(r)) && m[bb] != Some(r)
    ensures r in g.blocks && r in df'
    ensures Walking(g, m, df, df'[r := df'[r] + {bb}], bb, u, m[r])
    ensures WalkRank(g, m[r]) < WalkRank(g, Some(r))
  {
    if Reachable(g, u) {
      ReachableInBlocks(g, r);
      EntryReachable(g);
      DominatorReachable(g, m[bb].value, r);
      assert r != g.entry;
      var i := m[r].value;
      IdomStep(g, i, r);
      IdomDepth(g, i, r);
      DominatesTransitive(g, i, r, u);
    }
  }

  ghost function WalkRank(g: Graph, r: Option<Block>): nat {
    if r.None? then 0 else if !Reachable(g, r.value) then 1 else 1 + |DominatorSet(g, r.value)|
  }

  lemma WalkEnd(g: Graph, m: IdomMap, df: map<Block, set<Block>>, df': map<Block, set<Block>>, bb: Block, u: Block)
    requires WellFormed(g) && IdomCorrect(g, m) && bb in g.blocks && Edge(g, u, bb)
    requires Walking(g, m, df, df', bb, u, m[bb])
    ensures Walked(g, m, df, df', bb, u) && (Reachable(g, bb) ==> Reachable(g, u))
  {
    if Reachable(g, u) {
      SuccReachable(g, u, bb);
    } else if m[bb] == Some(u) {
      EntryReachable(g);
      DominatorReachable(g, u, bb);
    }
  }

  lemma WalkAdds(g: Graph, m: IdomMap, df: map<Block, set<Block>>, df': map<Block, set<Block>>, edges: set<(Block, Block)>,
                 bb: Block, u: Block)
    requires FrontierOf(g, m, df, edges) && bb in g.blocks && Walked(g, m, df, df', bb, u)
    ensures FrontierOf(g, m, df', edges + {(u, bb)})
  {
    forall x, b | x in g.blocks && b in g.blocks
      ensures b in df'[x] <==> exists v :: (v, b) in edges + {(u, bb)} && Contributes(g, m, x, b, v)
    {
      if b in df[x] {
        var v :| (v, b) in edges && Contributes(g, m, x, b, v);
        assert (v, b) in edges + {(u, bb)};
      }
      if b == bb && Contributes(g, m, x, bb, u) {
        assert (u, b) in edges + {(u, bb)};
      }
      if v :| (v, b) in edges + {(u, bb)} && Contributes(g, m, x, b, v) && (v, b) in edges {
        assert b in df[x];
      }
    }
  }

  /** The computed frontiers of reachable blocks.  The walk stops below the idom,
      which for the entry is the entry: it never gets into its own frontier. */
  ghost predicate FrontierCorrect(g: Graph, df: map<Block, set<Block>>) {
    && (forall x | x in g.blocks :: x in df)
    && (forall x, b | x in g.blocks && Reachable(g, b) ::
          b in df[x] <==> InFrontier(g, x, b) && !(x == g.entry && b == g.entry))
    && (forall x, b | x in g.blocks && b in df[x] :: b in g.blocks && (Reachable(g, x) ==> Reachable(g, b)))
  }

  lemma ContributesIsFrontier(g: Graph, m: IdomMap, x: Block, b: Block, u: Block)
    requires WellFormed(g) && IdomCorrect(g, m) && Reachable(g, b) && b in g.blocks
    ensures Contributes(g, m, x, b, u) <==>
            Dominates(g, x, u) && !StrictlyDominates(g, x, b) && !(x == g.entry && b == g.entry)
  {
    EntryReachable(g);
    if b != g.entry {
      IdomStep(g, m[b].value, b);
      DominatesReflexive(g, b);
    }
  }

  /** The walks so far: all edges into the blocks in full, and those into bb from preds. */
  ghost predicate WalkedEdges(g: Graph, edges: set<(Block, Block)>, full: seq<Block>, bb: Block, preds: seq<Block>) {
    && (forall u: Block, b: Block :: (u, b) in edges <==> (Edge(g, u, b) && b in full) || (b == bb && u in preds))
    && (forall u: Block, b: Block :: (u, b) in edges && Reachable(g, b) ==> Reachable(g, u))
  }

  lemma WalkedEdgesStart(g: Graph)
    ensures WalkedEdges(g, {}, [], g.entry, [])
  {
  }

  lemma WalkedEdgesEnter(g: Graph, edges: set<(Block, Block)>, full: seq<Block>, bb: Block)
    requires WalkedEdges(g, edges, full, g.entry, [])
    ensures WalkedEdges(g, edges, full, bb, [])
  {
  }

  lemma WalkedEdgesAdd(g: Graph, edges: set<(Block, Block)>, full: seq<Block>, bb: Block, preds: seq<Block>, u: Block)
    requires WalkedEdges(g, edges, full, bb, preds) && (Reachable(g, bb) ==> Reachable(g, u))
    ensures WalkedEdges(g, edges + {(u, bb)}, full, bb, preds + [u])
  {
  }

  lemma WalkedEdgesNext(g: Graph, edges: set<(Block, Block)>, full: seq<Block>, bb: Block, next: Block)
    requires WellFormed(g) && bb in g.blocks && WalkedEdges(g, edges, full, bb, g.pre[bb])
    ensures WalkedEdges(g, edges, full + [bb], next, [])
  {
    forall u: Block, b: Block ensures (u, b) in edges <==> Edge(g, u, b) && b in full + [bb] {
      assert Edge(g, u, bb) <==> u in g.pre[bb];
    }
  }

  lemma FrontierStart(g: Graph, m: IdomMap, df: map<Block, set<Block>>)
    requires IdomCorrect(g, m) && forall x | x in g.blocks :: x in df && df[x] == {}
    ensures FrontierOf(g, m, df, {})
  {
  }

  lemma FrontierDomain(g: Graph, m: IdomMap, df: map<Block, set<Block>>, edges: set<(Block, Block)>)
    requires FrontierOf(g, m, df, edges)
    ensures forall b | b in g.blocks :: b in m && b in df
    ensures forall x, b | x in g.blocks && b in df[x] :: b in g.blocks
  {
  }

  lemma FrontierReached(g: Graph, m: IdomMap, x: Block, b: Block, u: Block)
    requires IdomCorrect(g, m) && b in g.blocks && Contributes(g, m, x, b, u) && Edge(g, u, b)
    ensures Reachable(g, x) ==> Reachable(g, b)
  {
    if Reachable(g, x) && !Reachable(g, b) {
      SuccReachable(g, x, b);
    }
  }

  lemma FrontierSource(g: Graph, m: IdomMap, df: map<Block, set<Block>>, edges: set<(Block, Block)>, x: Block, b: Block) returns (u: Block)
    requires FrontierOf(g, m, df, edges) && x in g.blocks && b in df[x]
    ensures (u, b) in edges && Contributes(g, m, x, b, u)
  {
    hide Contributes;
    assert b in g.blocks && b in df[x];
    u :| (u, b) in edges && Contributes(g, m, x, b, u);
  }

  lemma FrontierTarget(g: Graph, m: IdomMap, df: map<Block, set<Block>>, edges: set<(Block, Block)>, x: Block, b: Block, u: Block)
    requires FrontierOf(g, m, df, edges) && x in g.blocks && (u, b) in edges && Contributes(g, m, x, b, u)
    ensures b in df[x]
  {
    hide Contributes;
  }

  lemma FrontierMember(g: Graph, m: IdomMap, df: map<Block, set<Block>>, edges: set<(Block, Block)>, x: Block, b: Block)
    requires WellFormed(g) && IdomCorrect(g, m) && FrontierOf(g, m, df, edges)
    requires x in g.blocks && b in g.blocks && Reachable(g, b)
    requires forall u: Block :: (u, b) in edges <==> u in g.pre[b]
    ensures b in df[x] <==> InFrontier(g, x, b) && !(x == g.entry && b == g.entry)
  {
    hide FrontierOf, IdomCorrect, Contributes, Dominates, StrictlyDominates, Reachable;
    FrontierDomain(g, m, df, edges);
    if b in df[x] {
      var u := FrontierSource(g, m, df, edges, x, b);
      ContributesIsFrontier(g, m, x, b, u);
      assert u in g.pre[b];
    }
    if InFrontier(g, x, b) && !(x == g.entry && b == g.entry) {
      var u :| u in g.pre[b] && Dominates(g, x, u) && !StrictlyDominates(g, x, b);
      ContributesIsFrontier(g, m, x, b, u);
      FrontierTarget(g, m, df, edges, x, b, u);
    }
  }

  lemma FrontierComplete(g: Graph, m: IdomMap, df: map<Block, set<Block>>, edges: set<(Block, Block)>)
    requires WellFormed(g) && IdomCorrect(g, m) && FrontierOf(g, m, df, edges)
    requires WalkedEdges(g, edges, g.blocks, g.entry, [])
    ensures FrontierCorrect(g, df) && ReachableClosedUnderPred(g)
  {
    hide FrontierOf, InFrontier, IdomCorrect, Contributes, Reachable;
    FrontierDomain(g, m, df, edges);
    forall x, b | x in g.blocks && b in df[x] ensures b in g.blocks && (Reachable(g, x) ==> Reachable(g, b)) {
      var u := FrontierSource(g, m, df, edges, x, b);
      FrontierReached(g, m, x, b, u);
    }
    forall u, v | Edge(g, u, v) && Reachable(g, v) ensures Reachable(g, u) {
      ReachableInBlocks(g, v);
      assert (u, v) in edges;
    }
    forall x, b | x in g.blocks && Reachable(g, b)
      ensures b in df[x] <==> InFrontier(g, x, b) && !(x == g.entry && b == g.entry)
    {
      ReachableInBlocks(g, b);
      assert forall u: Block :: (u, b) in edges <==> u in g.pre[b] by {
        assert forall u: Block :: Edge(g, u, b) <==> u in g.pre[b];
      }
      FrontierMember(g, m, df, edges, x, b);
    }
  }

  // ----- the dominator tree and its interval numbering -----

  /** The tree children of x among the blocks in seen. */
  ghost function Children(m: IdomMap, x: Block, seen: seq<Block>): set<Block> {
    set b | b in seen && b != x && b in m && m[b] == Some(x)
  }

  ghost predicate TreeCorrect(g: Graph, m: IdomMap, tree: map<Block, set<Block>>) {
    forall x | x in g.blocks :: x in tree && tree[x] == Children(m, x, g.blocks)
  }

  lemma IdomKnown(g: Graph, m: IdomMap, b: Block)
    requires WellFormed(g) && IdomCorrect(g, m) && b in g.blocks
    ensures b in m && (m[b].Some? ==> m[b].value in g.blocks)
  {
    if m[b].Some? && b != g.entry {
      DominatorReachable(g, m[b].value, b);
      ReachableInBlocks(g, m[b].value);
    }
  }

  /** All blocks below one of the blocks in cs. */
  ghost function Forest(g: Graph, cs: set<Block>): set<Block> {
    set b | b in g.blocks && Reachable(g, b) && exists c :: c in cs && Dominates(g, c, b)
  }

  /** The numbers of s lie in (lo, hi], and dfs lists s by its L numbers. */
  ghost predicate NumbersIn(l: map<Block, nat>, r: map<Block, nat>, dfs: seq<Block>, s: set<Block>, lo: nat, hi: nat) {
    forall a | a in s :: a in l && a in r && lo < l[a] <= r[a] <= hi && l[a] <= |dfs| && dfs[l[a] - 1] == a
  }

  /** The interval test decides dominance inside s. */
  ghost predicate IntervalsDecide(g: Graph, l: map<Block, nat>, r: map<Block, nat>, s: set<Block>) {
    forall a, b | a in s && b in s :: a in l && b in l && a in r && (Dominates(g, a, b) <==> l[a] <= l[b] <= r[a])
  }

  ghost predicate SameOutside(m: map<Block, nat>, m': map<Block, nat>, s: set<Block>) {
    forall b | b !in s :: (b in m' <==> b in m) && (b in m ==> m'[b] == m[b])
  }

  /** The list has grown by blocks of s, each at the place its number says. */
  ghost predicate ListGrows(dfs: seq<Block>, dfs': seq<Block>, l': map<Block, nat>, s: set<Block>) {
    && dfs <= dfs'
    && forall k | |dfs| <= k < |dfs'| :: dfs'[k] in s && dfs'[k] in l' && l'[dfs'[k]] == k + 1
  }

  /** Every block comes after all blocks that it strictly dominates. */
  ghost predicate DominatorsLast(g: Graph, order: seq<Block>) {
    && NoDuplicates(order)
    && (forall b :: b in order <==> Reachable(g, b))
    && (forall i, j | 0 <= i < j < |order| :: !StrictlyDominates(g, order[i], order[j]))
  }

  lemma ChildrenOf(g: Graph, m: IdomMap, a: Block, c: Block)
    requires WellFormed(g) && IdomCorrect(g, m) && Reachable(g, a) && a in g.blocks
    requires c in Children(m, a, g.blocks)
    ensures c in g.blocks && Reachable(g, c) && c != g.entry && m[c] == Some(a) && IsIdom(g, a, c)
    ensures a !in Subtree(g, c) && |Subtree(g, c)| < |Subtree(g, a)|
  {
    assert Processed(m, c);
    IdomStep(g, a, c);
    forall b | b in Subtree(g, c) ensures b in Subtree(g, a) {
      DominatesTransitive(g, a, c, b);
    }
    if a in Subtree(g, c) {
      DominatesAntisymmetric(g, a, c);
    }
    DominatesReflexive(g, a);
    assert a in Subtree(g, a);
    ProperSubsetSmaller(Subtree(g, c), Subtree(g, a));
  }

  lemma ChildDiffers(g: Graph, a: Block, c: Block)
    requires IsIdom(g, a, c)
    ensures a != c
  {
  }

  lemma SubtreeSplits(g: Graph, m: IdomMap, a: Block)
    requires WellFormed(g) && IdomCorrect(g, m) && Reachable(g, a) && a in g.blocks
    ensures Subtree(g, a) == {a} + Forest(g, Children(m, a, g.blocks))
    ensures a !in Forest(g, Children(m, a, g.blocks))
  {
    var cs := Children(m, a, g.blocks);
    forall b ensures b in Subtree(g, a) <==> b == a || b in Forest(g, cs) {
      if b in Forest(g, cs) {
        var c :| c in cs && Dominates(g, c, b);
        ChildrenOf(g, m, a, c);
        DominatesTransitive(g, a, c, b);
      }
      if b in Subtree(g, a) && b != a {
        var c := BelowSomeChild(g, m, a, b);
        ChildDiffers(g, a, c);
        assert c in cs;
      }
      DominatesReflexive(g, a);
    }
    if a in Forest(g, cs) {
      var c :| c in cs && Dominates(g, c, a);
      ChildrenOf(g, m, a, c);
    }
  }

  /** One more child's subtree is unrelated to those of the other children. */
  lemma ForestApart(g: Graph, m: IdomMap, a: Block, cs: set<Block>, c: Block)
    requires WellFormed(g) && IdomCorrect(g, m) && Reachable(g, a) && a in g.blocks
    requires cs <= Children(m, a, g.blocks) && c in Children(m, a, g.blocks) && c !in cs
    ensures Forest(g, cs + {c}) == Forest(g, cs) + Subtree(g, c)
    ensures forall x, y | x in Forest(g, cs) && y in Subtree(g, c) :: x != y && !Dominates(g, x, y) && !Dominates(g, y, x)
  {
    ChildrenOf(g, m, a, c);
    forall b ensures b in Forest(g, cs + {c}) <==> b in Forest(g, cs) || b in Subtree(g, c) {
      if b in Subtree(g, c) {
        assert c in cs + {c};
      }
      if b in Forest(g, cs) {
        var d :| d in cs && Dominates(g, d, b);
        assert d in cs + {c};
      }
    }
    forall x, y | x in Forest(g, cs) && y in Subtree(g, c)
      ensures x != y && !Dominates(g, x, y) && !Dominates(g, y, x)
    {
      var d :| d in cs && Dominates(g, d, x);
      ChildrenOf(g, m, a, d);
      if x == y || Dominates(g, x, y) {
        DominatesTransitive(g, d, x, y);
        SiblingsDisjoint(g, m, a, c, d, y);
      } else if Dominates(g, y, x) {
        DominatesTransitive(g, c, y, x);
        SiblingsDisjoint(g, m, a, c, d, x);
      }
    }
  }

  /** Numbering one more subtree after the others. */
  lemma NumberingMerge(g: Graph, l: map<Block, nat>, r: map<Block, nat>, l': map<Block, nat>, r': map<Block, nat>,
                       dfs: seq<Block>, dfs': seq<Block>, s: set<Block>, c: set<Block>, lo: nat, mid: nat, hi: nat)
    requires NumbersIn(l, r, dfs, s, lo, mid) && IntervalsDecide(g, l, r, s)
    requires NumbersIn(l', r', dfs', c, mid, hi) && IntervalsDecide(g, l', r', c)
    requires SameOutside(l, l', c) && SameOutside(r, r', c) && dfs <= dfs' && lo <= mid <= hi
    requires s !! c && forall x, y | x in s && y in c :: !Dominates(g, x, y) && !Dominates(g, y, x)
    ensures NumbersIn(l', r', dfs', s + c, lo, hi) && IntervalsDecide(g, l', r', s + c)
  {
    forall a | a in s + c
      ensures a in l' && a in r' && lo < l'[a] <= r'[a] <= hi && l'[a] <= |dfs'| && dfs'[l'[a] - 1] == a
    {
      if a in s {
        assert dfs'[..|dfs|][l[a] - 1] == dfs[l[a] - 1];
      }
    }
    forall a, b | a in s + c && b in s + c
      ensures a in l' && b in l' && a in r' && (Dominates(g, a, b) <==> l'[a] <= l'[b] <= r'[a])
    {
      if a in s && b in s {
        assert Dominates(g, a, b) <==> l[a] <= l[b] <= r[a];
      }
    }
  }

  /** Closing the interval of a node around its numbered children. */
  lemma NumberingClose(g: Graph, m: IdomMap, a: Block, l: map<Block, nat>, r: map<Block, nat>, dfs: seq<Block>, lo: nat, hi: nat)
    requires WellFormed(g) && IdomCorrect(g, m) && Reachable(g, a) && a in g.blocks
    requires a in l && l[a] == lo + 1 && lo + 1 <= |dfs| && dfs[lo] == a && lo + 1 <= hi
    requires NumbersIn(l, r, dfs, Forest(g, Children(m, a, g.blocks)), lo + 1, hi)
    requires IntervalsDecide(g, l, r, Forest(g, Children(m, a, g.blocks)))
    ensures NumbersIn(l, r[a := hi], dfs, Subtree(g, a), lo, hi)
    ensures IntervalsDecide(g, l, r[a := hi], Subtree(g, a))
  {
    SubtreeSplits(g, m, a);
    var f := Forest(g, Children(m, a, g.blocks));
    var r' := r[a := hi];
    forall x, y | x in Subtree(g, a) && y in Subtree(g, a)
      ensures x in l && y in l && x in r' && (Dominates(g, x, y) <==> l[x] <= l[y] <= r'[x])
    {
      if x in f && y in f {
        assert Dominates(g, x, y) <==> l[x] <= l[y] <= r[x];
      } else if x == a {
      } else if Dominates(g, x, a) {
        DominatesAntisymmetric(g, a, x);
      }
    }
  }

  lemma ListGrowsMore(dfs: seq<Block>, dfs': seq<Block>, dfs'': seq<Block>, l': map<Block, nat>, l'': map<Block, nat>,
                      s: set<Block>, c: set<Block>)
    requires ListGrows(dfs, dfs', l', s) && ListGrows(dfs', dfs'', l'', c) && SameOutside(l', l'', c) && s !! c
    ensures ListGrows(dfs, dfs'', l'', s + c)
  {
    forall k | |dfs| <= k < |dfs''| ensures dfs''[k] in s + c && dfs''[k] in l'' && l''[dfs''[k]] == k + 1 {
      if k < |dfs'| {
        assert dfs''[..|dfs'|][k] == dfs'[k];
      }
    }
  }

  /** The three structures of the numbering, as one value. */
  datatype Numbering = Numbering(l: map<Block, nat>, r: map<Block, nat>, dfs: seq<Block>)

  /** The subtree of a is numbered with (lo, hi], and nothing else has changed since n0. */
  ghost predicate SubtreeNumbered(g: Graph, n0: Numbering, n: Numbering, a: Block, lo: nat, hi: nat) {
    && lo == |n0.dfs| <= hi == |n.dfs|
    && NumbersIn(n.l, n.r, n.dfs, Subtree(g, a), lo, hi) && IntervalsDecide(g, n.l, n.r, Subtree(g, a))
    && SameOutside(n0.l, n.l, Subtree(g, a)) && SameOutside(n0.r, n.r, Subtree(g, a))
    && ListGrows(n0.dfs, n.dfs, n.l, Subtree(g, a))
  }

  /** The children of a that are not in rest are numbered, and a's interval is open. */
  ghost predicate ForestNumbered(g: Graph, m: IdomMap, n0: Numbering, n: Numbering, a: Block, rest: set<Block>, hi: nat) {
    var lo := |n0.dfs|;
    var forest := Forest(g, Children(m, a, g.blocks) - rest);
    && rest <= Children(m, a, g.blocks)
    && lo < hi == |n.dfs|
    && a in n.l && n.l[a] == lo + 1 && n.dfs[lo] == a
    && NumbersIn(n.l, n.r, n.dfs, forest, lo + 1, hi) && IntervalsDecide(g, n.l, n.r, forest)
    && SameOutside(n0.l, n.l, Subtree(g, a)) && SameOutside(n0.r, n.r, Subtree(g, a))
    && ListGrows(n0.dfs, n.dfs, n.l, forest + {a})
  }

  lemma ForestOpen(g: Graph, m: IdomMap, n0: Numbering, a: Block)
    requires WellFormed(g) && IdomCorrect(g, m) && Reachable(g, a) && a in g.blocks
    ensures ForestNumbered(g, m, n0, Numbering(n0.l[a := |n0.dfs| + 1], n0.r, n0.dfs + [a]), a,
                           Children(m, a, g.blocks), |n0.dfs| + 1)
  {
    SubtreeSplits(g, m, a);
    assert Children(m, a, g.blocks) - Children(m, a, g.blocks) == {};
    assert Forest(g, {}) == {};
  }

  lemma ForestGrowSets(g: Graph, m: IdomMap, a: Block, rest: set<Block>, c: Block)
    requires WellFormed(g) && IdomCorrect(g, m) && Reachable(g, a) && a in g.blocks
    requires rest <= Children(m, a, g.blocks) && c in rest
    ensures var f := Forest(g, Children(m, a, g.blocks) - rest);
            && Forest(g, Children(m, a, g.blocks) - (rest - {c})) == f + Subtree(g, c)
            && f + {a} !! Subtree(g, c) && Subtree(g, c) <= Subtree(g, a)
            && forall x, y | x in f && y in Subtree(g, c) :: x != y && !Dominates(g, x, y) && !Dominates(g, y, x)
  {
    var all := Children(m, a, g.blocks);
    ForestApart(g, m, a, all - rest, c);
    assert all - rest + {c} == all - (rest - {c});
    ChildrenOf(g, m, a, c);
    SubtreeSplits(g, m, a);
  }

  lemma ForestGrow(g: Graph, m: IdomMap, n0: Numbering, n: Numbering, n': Numbering, a: Block, rest: set<Block>, c: Block,
                   mid: nat, hi: nat)
    requires WellFormed(g) && IdomCorrect(g, m) && Reachable(g, a) && a in g.blocks
    requires ForestNumbered(g, m, n0, n, a, rest, mid) && c in rest
    requires SubtreeNumbered(g, n, n', c, mid, hi)
    ensures ForestNumbered(g, m, n0, n', a, rest - {c}, hi)
  {
    hide Subtree, Forest, Children, Reachable, WellFormed, IdomCorrect, NumbersIn, IntervalsDecide, Dominates;
    var f := Forest(g, Children(m, a, g.blocks) - rest);
    ForestGrowSets(g, m, a, rest, c);
    NumberingMerge(g, n.l, n.r, n'.l, n'.r, n.dfs, n'.dfs, f, Subtree(g, c), |n0.dfs| + 1, mid, hi);
    ListGrowsMore(n0.dfs, n.dfs, n'.dfs, n.l, n'.l, f + {a}, Subtree(g, c));
    assert f + {a} + Subtree(g, c) == f + Subtree(g, c) + {a};
  }

  lemma NumberedLength(g: Graph, n0: Numbering, n: Numbering, a: Block, lo: nat, hi: nat)
    requires SubtreeNumbered(g, n0, n, a, lo, hi)
    ensures hi == |n.dfs|
  {
  }

  lemma ForestClose(g: Graph, m: IdomMap, n0: Numbering, n: Numbering, a: Block, hi: nat)
    requires WellFormed(g) && IdomCorrect(g, m) && Reachable(g, a) && a in g.blocks
    requires ForestNumbered(g, m, n0, n, a, {}, hi)
    ensures SubtreeNumbered(g, n0, Numbering(n.l, n.r[a := hi], n.dfs), a, |n0.dfs|, hi)
  {
    assert Children(m, a, g.blocks) - {} == Children(m, a, g.blocks);
    NumberingClose(g, m, a, n.l, n.r, n.dfs, |n0.dfs|, hi);
    SubtreeSplits(g, m, a);
  }

  /** The reversed preorder of the tree lists dominators last. */
  lemma ReversedOrder(g: Graph, n: Numbering, order: seq<Block>)
    requires WellFormed(g) && |order| == |n.dfs|
    requires forall i | 0 <= i < |order| :: order[i] == n.dfs[|n.dfs| - 1 - i]
    requires NumbersIn(n.l, n.r, n.dfs, Subtree(g, g.entry), 0, |n.dfs|)
    requires IntervalsDecide(g, n.l, n.r, Subtree(g, g.entry))
    requires ListGrows([], n.dfs, n.l, Subtree(g, g.entry))
    ensures DominatorsLast(g, order)
  {
    EntryReachable(g);
    forall b ensures b in order <==> Reachable(g, b) {
      if Reachable(g, b) {
        ReachableInBlocks(g, b);
        assert b in Subtree(g, g.entry);
        assert order[|order| - n.l[b]] == b;
      }
      if b in order {
        var i :| 0 <= i < |order| && order[i] == b;
        assert n.dfs[|n.dfs| - 1 - i] in Subtree(g, g.entry);
      }
    }
    forall i, j | 0 <= i < j < |order| ensures order[i] != order[j] && !StrictlyDominates(g, order[i], order[j]) {
      var x, y := n.dfs[|n.dfs| - 1 - i], n.dfs[|n.dfs| - 1 - j];
      assert x in Subtree(g, g.entry) && y in Subtree(g, g.entry) && n.l[y] < n.l[x];
    }
  }

  lemma EntryInBlocks(g: Graph)
    requires WellFormed(g)
    ensures g.entry in g.blocks && Reachable(g, g.entry)
  {
    EntryReachable(g);
  }

  lemma AllNumbered(g: Graph, n0: Numbering, n: Numbering, hi: nat, order: seq<Block>)
    requires WellFormed(g) && n0.dfs == [] && SubtreeNumbered(g, n0, n, g.entry, 0, hi)
    requires |order| == |n.dfs| && forall i | 0 <= i < |order| :: order[i] == n.dfs[|n.dfs| - 1 - i]
    ensures IntervalsDecide(g, n.l, n.r, Subtree(g, g.entry)) && DominatorsLast(g, order)
  {
    hide WellFormed, IntervalsDecide, DominatorsLast, NumbersIn, ListGrows, SameOutside;
    ReversedOrder(g, n, order);
  }

  class Dominators {
    var postOrderVec: seq<Block>
    var postOrder: map<Block, nat>
    var idom: IdomMap
    var domFrontier: map<Block, set<Block>>
    var domTreeSucc: map<Block, set<Block>>
    var domTreeL: map<Block, nat>
    var domTreeR: map<Block, nat>
    var domDfsOrder: seq<Block>
    var domPostOrder: seq<Block>

    constructor ()
      ensures Valid()
      ensures postOrder == map[] && domFrontier == map[] && domTreeSucc == map[]
    {
      postOrderVec, postOrder, idom := [], map[], map[];
      domFrontier, domTreeSucc, domTreeL, domTreeR := map[], map[], map[], map[];
      domDfsOrder, domPostOrder := [], [];
    }

    ghost predicate Valid()
      reads this
    {
      Numbered(postOrder, postOrderVec)
    }

    method Dfs(g: Graph, bb: Block, visited: set<Block>, ghost base: set<Block>, ghost tree: map<Block, seq<Block>>,
               ghost path: seq<Block>, ghost open: set<Block>)
      returns (visited': set<Block>, ghost tree': map<Block, seq<Block>>)
      requires WellFormed(g) && bb in g.blocks && bb !in visited && Disjoint(base, g.blocks)
      requires Valid() && DfsInv(g, postOrder, base, visited, tree, open) && OpenPath(g, path, open, bb)
      modifies this`postOrder, this`postOrderVec
      ensures Valid() && DfsInv(g, postOrder, base, visited', tree', open) && Extends(old(postOrder), postOrder)
      ensures visited + {bb} <= visited'
      decreases Unvisited(g, visited)
    {
      hide Size, DfsInv, OpenPath, Numbered, Extends, WellFormed, Unvisited, Disjoint;
      SuccessorsKnown(g, bb);
      visited', tree' := visited + {bb}, tree;
      DfsEnter(g, postOrder, base, visited, tree, path, open, bb);
      ExtendsReflexive(postOrder);
      var i := 0;
      while i < |g.succ[bb]|
        invariant 0 <= i <= |g.succ[bb]|
        invariant visited + {bb} <= visited'
        invariant Valid() && DfsInv(g, postOrder, base, visited', tree', open + {bb})
        invariant forall j | 0 <= j < i :: g.succ[bb][j] in visited'
        invariant Extends(old(postOrder), postOrder)
      {
        var succ := g.succ[bb][i];
        if succ !in visited' {
          DfsDescend(g, path, open, bb, succ);
          UnvisitedShrinks(g, visited, visited', bb);
          ghost var before := postOrder;
          visited', tree' := Dfs(g, succ, visited', base, tree', path + [succ], open + {bb});
          ExtendsTransitive(old(postOrder), before, postOrder);
        }
        i := i + 1;
      }
      DfsLeave(g, old(postOrder), postOrder, postOrderVec, base, visited', tree', path, open, bb);
      postOrderVec := postOrderVec + [bb];
      postOrder := postOrder[bb := Size(postOrder)];
      tree' := tree'[bb := path];
    }

    method CreateReversePostOrder(g: Graph)
      requires WellFormed(g) && Valid() && Disjoint(postOrder.Keys, g.blocks)
      modifies this`postOrder, this`postOrderVec
      ensures Valid() && PostOrderOk(g, postOrder) && Extends(old(postOrder), postOrder)
      ensures postOrder.Keys == old(postOrder).Keys + set b | b in g.blocks && Reachable(g, b)
    {
      hide Numbered, DfsInv, PathTo, OpenPath, PostOrderOk, Extends;
      DfsStart(g, postOrder);
      var visited;
      ghost var base, tree := postOrder.Keys, map[];
      visited, tree := Dfs(g, g.entry, {}, base, tree, [g.entry], {});
      NumberInjective(postOrder, postOrderVec);
      DfsComplete(g, postOrder, base, visited, tree);
    }

    method Intersect(g: Graph, b1: Block, b2: Block, ghost t: RankMap) returns (r: Block)
      requires WellFormed(g) && TreeInv(g, idom, t) && PostOrderOk(g, postOrder)
      requires b1 in g.blocks && b2 in g.blocks && Processed(idom, b1) && Processed(idom, b2)
      ensures Climbing(g, idom, t, b1, b2, r, r)
    {
      var x, y := b1, b2;
      while x != y
        invariant Climbing(g, idom, t, b1, b2, x, y)
        invariant x in t && y in t
        decreases t[x] + t[y]
      {
        ghost var x0, y0 := x, y;
        while postOrder[x] < postOrder[y]
          invariant Climbing(g, idom, t, b1, b2, x, y)
          invariant x in t && x in postOrder && y in postOrder && (x == x0 || t[x] < t[x0])
          decreases t[x]
        {
          ClimbStep(g, postOrder, idom, t, b1, b2, x, y);
          x := idom[x].value;
        }
        while postOrder[y] < postOrder[x]
          invariant Climbing(g, idom, t, b1, b2, x, y)
          invariant y in t && x in postOrder && y in postOrder && (y == y0 || t[y] < t[y0])
          decreases t[y]
        {
          ClimbSwap(g, idom, t, b1, b2, x, y);
          ClimbStep(g, postOrder, idom, t, b2, b1, y, x);
          y := idom[y].value;
          ClimbSwap(g, idom, t, b2, b1, y, x);
        }
      }
      r := x;
    }

    /** Step 3: the common part of the chains of all processed predecessors. */
    method NewIdom(g: Graph, bb: Block, ghost t: RankMap) returns (newIdom: Option<Block>)
      requires WellFormed(g) && TreeInv(g, idom, t) && PostOrderOk(g, postOrder)
      requires bb in g.blocks && forall b | b in g.blocks :: b in idom
      ensures bb in g.pre && Intersecting(g, idom, t, bb, g.pre[bb], newIdom)
    {
      hide PostOrderOk, TreeInv, Intersecting, Climbing;
      newIdom := None;
      IntersectingNone(g, idom, t, bb);
      var i := 0;
      while i < |g.pre[bb]|
        invariant 0 <= i <= |g.pre[bb]|
        invariant Intersecting(g, idom, t, bb, g.pre[bb][..i], newIdom)
      {
        var pred := g.pre[bb][i];
        assert pred in g.pre[bb] && Edge(g, pred, bb);
        assert g.pre[bb][..i + 1] == g.pre[bb][..i] + [pred];
        if idom[pred].None? {
          IntersectingSkip(g, idom, t, bb, g.pre[bb][..i], pred, newIdom);
        } else {
          if newIdom.None? {
            IntersectingFirst(g, idom, t, bb, g.pre[bb][..i], pred);
            newIdom := Some(pred);
          } else {
            IntersectingIn(g, idom, t, bb, g.pre[bb][..i], newIdom);
            var r := Intersect(g, newIdom.value, pred, t);
            IntersectingNext(g, idom, t, bb, g.pre[bb][..i], newIdom.value, pred, r);
            newIdom := Some(r);
          }
        }
        i := i + 1;
      }
      assert g.pre[bb][..i] == g.pre[bb];
    }

    /** Immediate dominators of every block, for any graph and any block order,
        in at most as many passes as there are blocks. */
    method CreateIdom(g: Graph) returns (ghost passes: nat)
      requires WellFormed(g) && PostOrderOk(g, postOrder)
      modifies this`idom
      ensures IdomCorrect(g, idom)
      ensures passes <= BlockCount(g)
    {
      hide BlockCount, WellFormed, IdomCorrect, PostOrderOk, PassState, Intersecting;
      InitIdom(g);
      ghost var t: RankMap, n: nat := map[g.entry := 0], 1;
      PassStart(g, idom);
      passes := 0;
      var changed := true;
      while changed
        invariant PassState(g, idom, t, n, passes + 1, {}, [], false)
        invariant changed ==> passes < BlockCount(g)
        invariant !changed ==> IdomCorrect(g, idom)
        invariant passes <= BlockCount(g)
        decreases BlockCount(g) - passes
      {
        changed := false;
        ghost var done: set<Block> := {};
        var i := 0;
        while i < |g.blocks|
          invariant 0 <= i <= |g.blocks|
          invariant PassState(g, idom, t, n, passes + 1, done, g.blocks[..i], changed)
        {
          var bb := g.blocks[i];
          assert g.blocks[..i + 1] == g.blocks[..i] + [bb];
          if bb != g.entry {
            PassUnfold(g, idom, t, n, passes + 1, done, g.blocks[..i], changed);
            var newIdom := NewIdom(g, bb, t);
            ghost var t' := PassStep(g, idom, t, n, passes + 1, done, g.blocks[..i], changed, bb, newIdom);
            if newIdom != idom[bb] {
              idom := idom[bb := newIdom];
              changed := true;
            } else {
              assert idom[bb := newIdom] == idom;
            }
            t, n, done := t', n + 1, done + {bb};
          } else {
            PassSkip(g, idom, t, n, passes + 1, done, g.blocks[..i], changed);
          }
          i := i + 1;
        }
        assert g.blocks[..i] == g.blocks;
        PassEnd(g, idom, t, n, passes + 1, done, changed);
        passes := passes + 1;
      }
    }

    method InitIdom(g: Graph)
      requires WellFormed(g)
      modifies this`idom
      ensures g.entry in idom && idom[g.entry] == Some(g.entry)
      ensures forall b | b in g.blocks && b != g.entry :: b in idom && idom[b].None?
    {
      var i := 0;
      while i < |g.blocks|
        invariant 0 <= i <= |g.blocks|
        invariant forall j | 0 <= j < i ::
                    g.blocks[j] in idom && idom[g.blocks[j]] == if g.blocks[j] == g.entry then Some(g.entry) else None
      {
        var bb := g.blocks[i];
        idom := idom[bb := if bb == g.entry then Some(bb) else None];
        i := i + 1;
      }
    }

    /** The runner walk of one predecessor, up the idom chain. */
    method RunnerWalk(g: Graph, bb: Block, pred: Block) returns (outcome: Outcome)
      requires WellFormed(g) && IdomCorrect(g, idom) && bb in g.blocks && Edge(g, pred, bb)
      requires forall x | x in g.blocks :: x in domFrontier
      modifies this`domFrontier
      ensures forall x | x in g.blocks :: x in domFrontier
      ensures outcome.Finished? <==> (Reachable(g, bb) ==> Reachable(g, pred))
      ensures outcome.Finished? ==> Walked(g, idom, old(domFrontier), domFrontier, bb, pred)
    {
      var runner := Some(pred);
      WalkStart(g, idom, domFrontier, bb, pred);
      while runner != idom[bb]
        invariant Walking(g, idom, old(domFrontier), domFrontier, bb, pred, runner)
        decreases WalkRank(g, runner)
      {
        if runner.None? {
          return OutOfRange;
        }
        WalkStep(g, idom, old(domFrontier), domFrontier, bb, pred, runner.value);
        domFrontier := domFrontier[runner.value := domFrontier[runner.value] + {bb}];
        runner := idom[runner.value];
      }
      WalkEnd(g, idom, old(domFrontier), domFrontier, bb, pred);
      outcome := Finished;
    }

    method CreateDominanceFrontier(g: Graph) returns (outcome: Outcome)
      requires WellFormed(g) && IdomCorrect(g, idom)
      requires forall x | x in g.blocks :: x in domFrontier && domFrontier[x] == {}
      modifies this`domFrontier
      ensures outcome.Finished? <==> ReachableClosedUnderPred(g)
      ensures outcome.Finished? ==> FrontierCorrect(g, domFrontier)
    {
      hide IdomCorrect, FrontierOf, WalkedEdges, Walked, FrontierCorrect, Reachable;
      ghost var edges: set<(Block, Block)> := {};
      WalkedEdgesStart(g);
      FrontierStart(g, idom, domFrontier);
      var i := 0;
      while i < |g.blocks|
        invariant 0 <= i <= |g.blocks|
        invariant FrontierOf(g, idom, domFrontier, edges)
        invariant WalkedEdges(g, edges, g.blocks[..i], g.entry, [])
        invariant forall x | x in g.blocks :: x in domFrontier
      {
        var bb := g.blocks[i];
        WalkedEdgesEnter(g, edges, g.blocks[..i], bb);
        var j := 0;
        while j < |g.pre[bb]|
          invariant 0 <= j <= |g.pre[bb]|
          invariant FrontierOf(g, idom, domFrontier, edges)
          invariant WalkedEdges(g, edges, g.blocks[..i], bb, g.pre[bb][..j])
          invariant forall x | x in g.blocks :: x in domFrontier
        {
          var pred := g.pre[bb][j];
          assert pred in g.pre[bb];
          assert g.pre[bb][..j + 1] == g.pre[bb][..j] + [pred];
          ghost var before := domFrontier;
          outcome := RunnerWalk(g, bb, pred);
          if outcome.OutOfRange? {
            return;
          }
          WalkAdds(g, idom, before, domFrontier, edges, bb, pred);
          WalkedEdgesAdd(g, edges, g.blocks[..i], bb, g.pre[bb][..j], pred);
          edges := edges + {(pred, bb)};
          j := j + 1;
        }
        assert g.pre[bb][..j] == g.pre[bb];
        assert g.blocks[..i + 1] == g.blocks[..i] + [bb];
        WalkedEdgesNext(g, edges, g.blocks[..i], bb, g.entry);
        i := i + 1;
      }
      outcome := Finished;
      assert g.blocks[..i] == g.blocks;
      FrontierComplete(g, idom, domFrontier, edges);
    }

    method CreateDomTreeSucc(g: Graph)
      requires WellFormed(g) && IdomCorrect(g, idom)
      requires forall x | x in g.blocks :: x in domTreeSucc && domTreeSucc[x] == {}
      modifies this`domTreeSucc
      ensures TreeCorrect(g, idom, domTreeSucc)
    {
      hide IdomCorrect, WellFormed, IsIdom;
      var i := 0;
      while i < |g.blocks|
        invariant 0 <= i <= |g.blocks|
        invariant forall x | x in g.blocks :: x in domTreeSucc && domTreeSucc[x] == Children(idom, x, g.blocks[..i])
      {
        var bb := g.blocks[i];
        assert g.blocks[..i + 1] == g.blocks[..i] + [bb];
        IdomKnown(g, idom, bb);
        var idomBB := idom[bb];
        if idomBB.Some? && idomBB.value != bb {
          domTreeSucc := domTreeSucc[idomBB.value := domTreeSucc[idomBB.value] + {bb}];
        }
        i := i + 1;
      }
      assert g.blocks[..i] == g.blocks;
    }

    ghost function TreeNumbering(): Numbering
      reads this
    {
      Numbering(domTreeL, domTreeR, domDfsOrder)
    }

    /** The recursive numbering of the subtree of bb; the children are a set, in any order. */
    method DomTreeDfs(g: Graph, bb: Block, order: nat) returns (order': nat)
      requires WellFormed(g) && IdomCorrect(g, idom) && TreeCorrect(g, idom, domTreeSucc)
      requires bb in g.blocks && Reachable(g, bb) && order == |domDfsOrder|
      modifies this`domTreeL, this`domTreeR, this`domDfsOrder
      ensures SubtreeNumbered(g, old(TreeNumbering()), TreeNumbering(), bb, order, order')
      decreases |Subtree(g, bb)|
    {
      hide WellFormed, IdomCorrect, ForestNumbered, SubtreeNumbered, Reachable;
      ForestOpen(g, idom, TreeNumbering(), bb);
      order' := order + 1;
      domTreeL := domTreeL[bb := order'];
      domDfsOrder := domDfsOrder + [bb];
      var rest := domTreeSucc[bb];
      while rest != {}
        invariant ForestNumbered(g, idom, old(TreeNumbering()), TreeNumbering(), bb, rest, order')
        invariant rest <= Children(idom, bb, g.blocks) && order' == |domDfsOrder|
        decreases rest
      {
        var succ :| succ in rest;
        ChildrenOf(g, idom, bb, succ);
        ghost var n, mid := TreeNumbering(), order';
        order' := DomTreeDfs(g, succ, order');
        assert order' == |domDfsOrder| by {
          NumberedLength(g, n, TreeNumbering(), succ, mid, order');
        }
        ForestGrow(g, idom, old(TreeNumbering()), n, TreeNumbering(), bb, rest, succ, mid, order');
        rest := rest - {succ};
      }
      ForestClose(g, idom, old(TreeNumbering()), TreeNumbering(), bb, order');
      domTreeR := domTreeR[bb := order'];
    }

    method CreateDomDfsOrder(g: Graph)
      requires WellFormed(g) && IdomCorrect(g, idom) && TreeCorrect(g, idom, domTreeSucc)
      requires domDfsOrder == []
      modifies this`domTreeL, this`domTreeR, this`domDfsOrder, this`domPostOrder
      ensures IntervalsDecide(g, domTreeL, domTreeR, Subtree(g, g.entry))
      ensures DominatorsLast(g, domPostOrder)
    {
      hide WellFormed, IdomCorrect, TreeCorrect, SubtreeNumbered, IntervalsDecide, DominatorsLast, Reachable;
      EntryInBlocks(g);
      ghost var was := TreeNumbering();
      var order := DomTreeDfs(g, g.entry, 0);
      domPostOrder := seq(|domDfsOrder|, i requires 0 <= i < |domDfsOrder| reads this => domDfsOrder[|domDfsOrder| - 1 - i]);
      AllNumbered(g, was, TreeNumbering(), order, domPostOrder);
    }

    /** Everything the passes read from a finished analysis. */
    ghost predicate Analysed(g: Graph)
      reads this
    {
      && IdomCorrect(g, idom)
      && FrontierCorrect(g, domFrontier)
      && TreeCorrect(g, idom, domTreeSucc)
      && IntervalsDecide(g, domTreeL, domTreeR, Subtree(g, g.entry))
      && DominatorsLast(g, domPostOrder)
    }

    /** Empty entries for the blocks that have none yet. */
    method InitMaps(g: Graph)
      requires Disjoint(domFrontier.Keys + domTreeSucc.Keys, g.blocks)
      modifies this`idom, this`domFrontier, this`domTreeSucc
      ensures forall b | b in g.blocks :: b in domFrontier && domFrontier[b] == {}
      ensures forall b | b in g.blocks :: b in domTreeSucc && domTreeSucc[b] == {}
    {
      var i := 0;
      while i < |g.blocks|
        invariant 0 <= i <= |g.blocks|
        invariant forall j | 0 <= j < i :: g.blocks[j] in domFrontier && g.blocks[j] in domTreeSucc
        invariant forall b | b in g.blocks :: b in domFrontier ==> domFrontier[b] == {}
        invariant forall b | b in g.blocks :: b in domTreeSucc ==> domTreeSucc[b] == {}
      {
        var bb := g.blocks[i];
        if bb !in idom {
          idom := idom[bb := None];
        }
        if bb !in domFrontier {
          domFrontier := domFrontier[bb := {}];
        }
        if bb !in domTreeSucc {
          domTreeSucc := domTreeSucc[bb := {}];
        }
        i := i + 1;
      }
    }

    /** The analysis of a function that this object has not seen before. */
    method RunOnFunc(g: Graph) returns (outcome: Outcome)
      requires WellFormed(g) && Valid()
      requires Disjoint(postOrder.Keys, g.blocks) && Disjoint(domFrontier.Keys + domTreeSucc.Keys, g.blocks)
      modifies this
      ensures Valid() && IdomCorrect(g, idom)
      ensures outcome.Finished? <==> ReachableClosedUnderPred(g)
      ensures outcome.Finished? ==> Analysed(g)
    {
      hide IdomCorrect, FrontierCorrect, TreeCorrect, IntervalsDecide, DominatorsLast, PostOrderOk, WellFormed, Numbered,
        ReachableClosedUnderPred, Extends, Disjoint, Reachable, Analysed;
      domPostOrder, domDfsOrder := [], [];
      InitMaps(g);
      CreateReversePostOrder(g);
      ghost var passes := CreateIdom(g);
      outcome := CreateDominanceFrontier(g);
      if outcome.Finished? {
        CreateDomTreeSucc(g);
        CreateDomDfsOrder(g);
        AnalysedIntro(g);
      }
    }

    lemma AnalysedIntro(g: Graph)
      requires IdomCorrect(g, idom) && FrontierCorrect(g, domFrontier) && TreeCorrect(g, idom, domTreeSucc)
      requires IntervalsDecide(g, domTreeL, domTreeR, Subtree(g, g.entry)) && DominatorsLast(g, domPostOrder)
      ensures Analysed(g)
    {
    }

    /** The interval test, for two blocks that have been numbered. */
    function IsDominate(ghost g: Graph, bb1: Block, bb2: Block): (r: bool)
      requires WellFormed(g) && Analysed(g) && Reachable(g, bb1) && Reachable(g, bb2)
      reads this
      ensures r <==> Dominates(g, bb1, bb2)
    {
      EntryReachable(g);
      ReachableInBlocks(g, bb1);
      ReachableInBlocks(g, bb2);
      assert bb1 in Subtree(g, g.entry) && bb2 in Subtree(g, g.entry);
      domTreeL[bb1] <= domTreeL[bb2] && domTreeR[bb1] >= domTreeL[bb2]
    }
  }
}
