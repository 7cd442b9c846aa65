/** Phi placement: one phi for a slot in exactly the blocks of the iterated
    dominance frontier of the blocks that store to it. */
module PhiPlacement {
  import opened Common
  import opened Cfg
  import opened DominatorAnalysis
  import opened Ir
  import opened Renaming

  type FrontierMap = map<Block, set<Block>>

  /** A chain of frontier steps from one of the blocks in defs to b. */
  ghost predicate FrontierChain(df: FrontierMap, defs: set<Block>, s: seq<Block>, b: Block) {
    && |s| >= 2 && s[0] in defs && s[|s| - 1] == b
    && forall i | 0 <= i < |s| - 1 :: s[i] in df && s[i + 1] in df[s[i]]
  }

  /** The iterated dominance frontier of defs. */
  ghost predicate InIteratedFrontier(df: FrontierMap, defs: set<Block>, b: Block) {
    exists s :: FrontierChain(df, defs, s, b)
  }

  lemma FrontierStep(df: FrontierMap, defs: set<Block>, c: Block, b: Block)
    requires c in df && b in df[c] && (c in defs || InIteratedFrontier(df, defs, c))
    ensures InIteratedFrontier(df, defs, b)
  {
    if c in defs {
      assert FrontierChain(df, defs, [c, b], b);
    } else {
      var s :| FrontierChain(df, defs, s, c);
      assert FrontierChain(df, defs, s + [b], b);
    }
  }

  /** The iterated frontier lies in every set that is closed under the frontier. */
  lemma {:induction false} FrontierLeast(df: FrontierMap, defs: set<Block>, has: set<Block>, s: seq<Block>, b: Block)
    requires forall c | c in defs || c in has :: c in df && df[c] <= has
    requires FrontierChain(df, defs, s, b)
    ensures b in has
    decreases |s|
  {
    var c := s[|s| - 2];
    assert s[|s| - 2 + 1] in df[c];
    if |s| > 2 {
      assert FrontierChain(df, defs, s[..|s| - 1], c);
      FrontierLeast(df, defs, has, s[..|s| - 1], c);
    }
  }

  ghost function StoreBlocks(f: Func, x: Slot): set<Block> {
    set b | b in f.graph.blocks && StoresTo(f, b, x)
  }

  type PhiMap = map<Block, seq<Phi>>

  /** Phi k of block b is new: no pairs, an identity in [first, next), a slot that has says b has a phi for. */
  ghost predicate PhiNew(phi: Phi, b: Block, slotOf: map<Id, Slot>, has: set<(Block, Slot)>, first: Id, next: Id) {
    phi.pairs == [] && first <= phi.id < next && phi.id in slotOf && (b, slotOf[phi.id]) in has
  }

  ghost predicate AllPhisNew(g: Graph, phis: PhiMap, slotOf: map<Id, Slot>, has: set<(Block, Slot)>, first: Id, next: Id) {
    && first <= next
    && (forall b | b in g.blocks :: b in phis)
    && (forall b, k | b in g.blocks && 0 <= k < |phis[b]| :: PhiNew(phis[b][k], b, slotOf, has, first, next))
  }

  /** No two phis share an identity, and no two phis of a block share a slot. */
  ghost predicate PhisApart(g: Graph, phis: PhiMap, slotOf: map<Id, Slot>) {
    forall b, k, c, j | b in g.blocks && c in g.blocks && b in phis && c in phis
        && 0 <= k < |phis[b]| && 0 <= j < |phis[c]| && (b != c || k != j) ::
      && phis[b][k].id != phis[c][j].id
      && (b == c && phis[b][k].id in slotOf && phis[c][j].id in slotOf ==> slotOf[phis[b][k].id] != slotOf[phis[c][j].id])
  }

  ghost predicate PhisComplete(g: Graph, phis: PhiMap, slotOf: map<Id, Slot>, has: set<(Block, Slot)>) {
    forall b, x | (b, x) in has ::
      b in g.blocks && b in phis && exists k :: 0 <= k < |phis[b]| && phis[b][k].id in slotOf && slotOf[phis[b][k].id] == x
  }

  /** The blocks have phis for exactly the pairs in has. */
  ghost predicate PhisAre(g: Graph, phis: PhiMap, slotOf: map<Id, Slot>, has: set<(Block, Slot)>, first: Id, next: Id) {
    AllPhisNew(g, phis, slotOf, has, first, next) && PhisApart(g, phis, slotOf) && PhisComplete(g, phis, slotOf, has)
  }

  /** A phi of the extended list is the new one in front or an earlier one moved up. */
  lemma PushFront(phis: PhiMap, b: Block, phi: Phi, c: Block, k: int)
    requires b in phis && c in phis && 0 <= k < |phis[b := [phi] + phis[b]][c]|
    ensures var phis' := phis[b := [phi] + phis[b]];
            phis'[c][k] == if c != b then phis[c][k] else if k == 0 then phi else phis[c][k - 1]
    ensures c != b ==> k < |phis[c]|
    ensures c == b ==> k <= |phis[c]|
  {
  }

  lemma AddedNew(g: Graph, phis: PhiMap, slotOf: map<Id, Slot>, has: set<(Block, Slot)>, first: Id, next: Id, b: Block, x: Slot)
    requires AllPhisNew(g, phis, slotOf, has, first, next) && b in g.blocks
    ensures AllPhisNew(g, phis[b := [Phi(next, [])] + phis[b]], slotOf[next := x], has + {(b, x)}, first, next + 1)
  {
    var phis': PhiMap := phis[b := [Phi(next, [])] + phis[b]];
    forall c, k | c in g.blocks && 0 <= k < |phis'[c]|
      ensures PhiNew(phis'[c][k], c, slotOf[next := x], has + {(b, x)}, first, next + 1)
    {
      PushFront(phis, b, Phi(next, []), c, k);
      if c != b {
        assert PhiNew(phis[c][k], c, slotOf, has, first, next);
      } else if k > 0 {
        assert PhiNew(phis[c][k - 1], c, slotOf, has, first, next);
      }
    }
  }

  lemma AddedApart(g: Graph, phis: PhiMap, slotOf: map<Id, Slot>, has: set<(Block, Slot)>, first: Id, next: Id, b: Block, x: Slot)
    requires PhisAre(g, phis, slotOf, has, first, next) && b in g.blocks && (b, x) !in has
    ensures PhisApart(g, phis[b := [Phi(next, [])] + phis[b]], slotOf[next := x])
  {
    var phis': PhiMap, slotOf': map<Id, Slot> := phis[b := [Phi(next, [])] + phis[b]], slotOf[next := x];
    forall c, k, d, j | c in g.blocks && d in g.blocks && c in phis' && d in phis'
        && 0 <= k < |phis'[c]| && 0 <= j < |phis'[d]| && (c != d || k != j)
      ensures phis'[c][k].id != phis'[d][j].id
      ensures c == d && phis'[c][k].id in slotOf' && phis'[d][j].id in slotOf' ==>
                slotOf'[phis'[c][k].id] != slotOf'[phis'[d][j].id]
    {
      PushFront(phis, b, Phi(next, []), c, k);
      PushFront(phis, b, Phi(next, []), d, j);
      var k', j' := if c == b then k - 1 else k, if d == b then j - 1 else j;
      if k' >= 0 {
        assert PhiNew(phis[c][k'], c, slotOf, has, first, next);
      }
      if j' >= 0 {
        assert PhiNew(phis[d][j'], d, slotOf, has, first, next);
      }
      if k' >= 0 && j' >= 0 {
        assert phis[c][k'].id != phis[d][j'].id;
      }
    }
  }

  lemma AddedComplete(g: Graph, phis: PhiMap, slotOf: map<Id, Slot>, has: set<(Block, Slot)>, first: Id, next: Id, b: Block, x: Slot)
    requires AllPhisNew(g, phis, slotOf, has, first, next) && PhisComplete(g, phis, slotOf, has) && b in g.blocks
    ensures PhisComplete(g, phis[b := [Phi(next, [])] + phis[b]], slotOf[next := x], has + {(b, x)})
  {
    var phis': PhiMap, slotOf': map<Id, Slot> := phis[b := [Phi(next, [])] + phis[b]], slotOf[next := x];
    forall c, y | (c, y) in has + {(b, x)}
      ensures c in g.blocks && c in phis'
      ensures exists k :: 0 <= k < |phis'[c]| && phis'[c][k].id in slotOf' && slotOf'[phis'[c][k].id] == y
    {
      if (c, y) == (b, x) {
        assert phis'[b][0].id in slotOf' && slotOf'[phis'[b][0].id] == x;
      } else {
        var k :| 0 <= k < |phis[c]| && phis[c][k].id in slotOf && slotOf[phis[c][k].id] == y;
        assert PhiNew(phis[c][k], c, slotOf, has, first, next);
        var k' := if c == b then k + 1 else k;
        assert phis'[c][k'] == phis[c][k];
      }
    }
  }

  lemma PhiAdded(g: Graph, phis: PhiMap, slotOf: map<Id, Slot>, has: set<(Block, Slot)>, first: Id, next: Id, b: Block, x: Slot)
    requires PhisAre(g, phis, slotOf, has, first, next) && b in g.blocks && (b, x) !in has
    ensures b in phis && PhisAre(g, phis[b := [Phi(next, [])] + phis[b]], slotOf[next := x], has + {(b, x)}, first, next + 1)
  {
    hide PhisApart, PhisComplete;
    AddedNew(g, phis, slotOf, has, first, next, b, x);
    AddedApart(g, phis, slotOf, has, first, next, b, x);
    AddedComplete(g, phis, slotOf, has, first, next, b, x);
  }

  /** The worklist of one slot: blocks that store or have a phi; the first i are processed. */
  ghost predicate Working(g: Graph, df: FrontierMap, defs: set<Block>, has: set<Block>, work: seq<Block>, i: nat) {
    && i <= |work|
    && has <= Elements(g.blocks)
    && (forall c | c in work :: c in g.blocks && (c in defs || c in has))
    && (forall c | c in defs || c in has :: c in work)
    && (forall b | b in has :: InIteratedFrontier(df, defs, b))
    && (forall j | 0 <= j < i :: work[j] in df && df[work[j]] <= has)
  }

  lemma WorkDone(g: Graph, df: FrontierMap, defs: set<Block>, has: set<Block>, work: seq<Block>)
    requires Working(g, df, defs, has, work, |work|)
    ensures forall b :: b in has <==> InIteratedFrontier(df, defs, b)
  {
    forall b ensures b in has <==> InIteratedFrontier(df, defs, b) {
      if InIteratedFrontier(df, defs, b) {
        var s :| FrontierChain(df, defs, s, b);
        FrontierLeast(df, defs, has, s, b);
      }
    }
  }

  lemma WorkPush(g: Graph, df: FrontierMap, defs: set<Block>, has: set<Block>, work: seq<Block>, i: nat, b: Block)
    requires Working(g, df, defs, has, work, i) && i < |work|
    requires work[i] in df && b in df[work[i]] && b in g.blocks
    ensures Working(g, df, defs, has + {b}, work + [b], i)
  {
    FrontierStep(df, defs, work[i], b);
  }

  lemma WorkStart(g: Graph, df: FrontierMap, defs: set<Block>, work: seq<Block>)
    requires defs <= Elements(g.blocks) && forall c :: c in work <==> c in defs
    ensures Working(g, df, defs, {}, work, 0)
  {
  }

  lemma WorkItem(g: Graph, df: FrontierMap, defs: set<Block>, has: set<Block>, work: seq<Block>, i: nat)
    requires Working(g, df, defs, has, work, i) && i < |work|
    ensures work[i] in g.blocks && has <= Elements(g.blocks)
  {
    var c := work[i];
    assert c in work;
  }

  lemma WorkAdvance(g: Graph, df: FrontierMap, defs: set<Block>, has: set<Block>, work: seq<Block>, i: nat)
    requires Working(g, df, defs, has, work, i) && i < |work|
    requires work[i] in df && df[work[i]] <= has
    ensures Working(g, df, defs, has, work, i + 1)
  {
  }

  /** What exact placement means for a function. */
  ghost predicate PlacedExactly(f: Func, slotOf: map<Id, Slot>, df: FrontierMap) {
    forall b, x | b in f.graph.blocks :: HasPhi(f, slotOf, b, x) <==> InIteratedFrontier(df, StoreBlocks(f, x), b)
  }

  lemma PlacedFromPairs(f: Func, slotOf: map<Id, Slot>, has: set<(Block, Slot)>, first: Id, next: Id, df: FrontierMap)
    requires PhisAre(f.graph, f.phis, slotOf, has, first, next)
    requires forall b, x :: (b, x) in has <==> InIteratedFrontier(df, StoreBlocks(f, x), b)
    requires forall id, b, i | DefinedAt(f, id, b, i) :: id < first
    ensures PlacedExactly(f, slotOf, df) && PhisFresh(f, slotOf)
  {
    forall id, b, i | PhiAt(f, id, b, i) ensures f.phis[b][i].pairs == [] && id in slotOf && first <= id {
      assert PhiNew(f.phis[b][i], b, slotOf, has, first, next);
    }
    forall b, x | b in f.graph.blocks ensures HasPhi(f, slotOf, b, x) <==> (b, x) in has {
      if HasPhi(f, slotOf, b, x) {
        var k :| 0 <= k < |f.phis[b]| && f.phis[b][k].id in slotOf && slotOf[f.phis[b][k].id] == x;
        assert PhiNew(f.phis[b][k], b, slotOf, has, first, next);
      }
    }
  }

  /** Exact placement is closed under the dominance frontiers of reachable blocks. */
  lemma PlacedIsClosed(f: Func, slotOf: map<Id, Slot>, df: FrontierMap)
    requires WellFormed(f.graph) && FrontierCorrect(f.graph, df) && PlacedExactly(f, slotOf, df)
    requires forall u :: !Edge(f.graph, u, f.graph.entry)
    ensures PhisClosed(f, slotOf)
  {
    forall c, b, x | (StoresTo(f, c, x) || HasPhi(f, slotOf, c, x)) && Reachable(f.graph, c) && InFrontier(f.graph, c, b)
      ensures HasPhi(f, slotOf, b, x)
    {
      ReachableInBlocks(f.graph, b);
      ReachableInBlocks(f.graph, c);
      var u :| u in f.graph.pre[b] && Dominates(f.graph, c, u) && !StrictlyDominates(f.graph, c, b);
      assert Edge(f.graph, u, b);
      assert b in df[c];
      if StoresTo(f, c, x) {
        assert c in StoreBlocks(f, x);
      }
      FrontierStep(df, StoreBlocks(f, x), c, b);
    }
  }

  // ----- the same by paths -----

  /** A chain of frontier steps, by paths, from a reachable store to b. */
  ghost predicate JoinChain(f: Func, x: Slot, s: seq<Block>, b: Block) {
    && |s| >= 2 && StoresTo(f, s[0], x) && Reachable(f.graph, s[0]) && s[|s| - 1] == b
    && forall i | 0 <= i < |s| - 1 :: InFrontier(f.graph, s[i], s[i + 1])
  }

  /** b is in the iterated dominance frontier of the reachable stores to x. */
  ghost predicate Joins(f: Func, x: Slot, b: Block) {
    exists s :: JoinChain(f, x, s, b)
  }

  lemma {:induction false} ChainByPaths(f: Func, df: FrontierMap, x: Slot, s: seq<Block>, b: Block)
    requires WellFormed(f.graph) && FrontierCorrect(f.graph, df) && ReachableClosedUnderPred(f.graph)
    requires FrontierChain(df, StoreBlocks(f, x), s, b) && Reachable(f.graph, b)
    ensures JoinChain(f, x, s, b)
    decreases |s|
  {
    var c := s[|s| - 2];
    assert s[|s| - 2 + 1] in df[c];
    ChainInBlocks(f, df, x, s, |s| - 2);
    assert InFrontier(f.graph, c, b);
    var u :| u in f.graph.pre[b] && Dominates(f.graph, c, u) && !StrictlyDominates(f.graph, c, b);
    ReachableInBlocks(f.graph, b);
    assert Edge(f.graph, u, b);
    DominatorReachable(f.graph, c, u);
    if |s| > 2 {
      assert FrontierChain(df, StoreBlocks(f, x), s[..|s| - 1], c);
      ChainByPaths(f, df, x, s[..|s| - 1], c);
      forall i | 0 <= i < |s| - 1 ensures InFrontier(f.graph, s[i], s[i + 1]) {
        if i < |s| - 2 {
          assert InFrontier(f.graph, s[..|s| - 1][i], s[..|s| - 1][i + 1]);
        }
      }
    }
  }

  lemma {:induction false} ChainInBlocks(f: Func, df: FrontierMap, x: Slot, s: seq<Block>, i: nat)
    requires FrontierCorrect(f.graph, df) && i < |s| && s[0] in StoreBlocks(f, x)
    requires forall j | 0 <= j < |s| - 1 :: s[j] in df && s[j + 1] in df[s[j]]
    ensures s[i] in f.graph.blocks
    decreases i
  {
    if i > 0 {
      var j := i - 1;
      ChainInBlocks(f, df, x, s, j);
      var c, b := s[j], s[j + 1];
      assert c in df && b in df[c];
    }
  }

  lemma ChainByMap(f: Func, df: FrontierMap, x: Slot, s: seq<Block>, b: Block)
    requires WellFormed(f.graph) && FrontierCorrect(f.graph, df) && forall u :: !Edge(f.graph, u, f.graph.entry)
    requires JoinChain(f, x, s, b)
    ensures FrontierChain(df, StoreBlocks(f, x), s, b)
  {
    forall i | 0 <= i < |s| - 1 ensures s[i] in df && s[i + 1] in df[s[i]] {
      assert InFrontier(f.graph, s[i], s[i + 1]);
      if i > 0 {
        assert InFrontier(f.graph, s[i - 1], s[i - 1 + 1]);
        ReachableInBlocks(f.graph, s[i]);
      }
      ReachableInBlocks(f.graph, s[i + 1]);
      var u :| u in f.graph.pre[s[i + 1]];
      assert Edge(f.graph, u, s[i + 1]);
    }
  }

  /** Phis are placed exactly on the iterated dominance frontiers. */
  lemma PlacedAtJoins(f: Func, slotOf: map<Id, Slot>, df: FrontierMap, b: Block, x: Slot)
    requires WellFormed(f.graph) && FrontierCorrect(f.graph, df) && PlacedExactly(f, slotOf, df)
    requires ReachableClosedUnderPred(f.graph) && forall u :: !Edge(f.graph, u, f.graph.entry)
    requires b in f.graph.blocks && Reachable(f.graph, b)
    ensures HasPhi(f, slotOf, b, x) <==> Joins(f, x, b)
  {
    if HasPhi(f, slotOf, b, x) {
      var s :| FrontierChain(df, StoreBlocks(f, x), s, b);
      ChainByPaths(f, df, x, s, b);
    }
    if Joins(f, x, b) {
      var s :| JoinChain(f, x, s, b);
      ChainByMap(f, df, x, s, b);
    }
  }

  // ----- sufficiency: where stores meet -----

  ghost predicate WalkTo(g: Graph, p: seq<Block>, b: Block) {
    |p| > 0 && Walk(g, p, p[0], b)
  }

  ghost predicate Writes(f: Func, slotOf: map<Id, Slot>, b: Block, x: Slot) {
    StoresTo(f, b, x) || HasPhi(f, slotOf, b, x)
  }

  /** On every walk from a store to b, some block that stores or has a phi dominates b. */
  lemma {:induction false} StoreWalkCovered(f: Func, slotOf: map<Id, Slot>, x: Slot, p: seq<Block>, b: Block) returns (j: nat)
    requires WellFormed(f.graph) && PhisClosed(f, slotOf)
    requires WalkTo(f.graph, p, b) && StoresTo(f, p[0], x) && Reachable(f.graph, p[0])
    ensures j < |p| && Writes(f, slotOf, p[j], x) && Dominates(f.graph, p[j], b) && Reachable(f.graph, b)
    decreases |p|
  {
    if |p| == 1 {
      DominatesReflexive(f.graph, b);
      j := 0;
    } else {
      var u := p[|p| - 2];
      j := StoreWalkCovered(f, slotOf, x, p[..|p| - 1], u);
      assert Edge(f.graph, u, p[|p| - 2 + 1]);
      SuccReachable(f.graph, u, b);
      DominatorReachable(f.graph, p[j], u);
      if !Dominates(f.graph, p[j], b) {
        assert InFrontier(f.graph, p[j], b);
        DominatesReflexive(f.graph, b);
        j := |p| - 1;
      }
    }
  }

  /** Where walks from two different stores first meet, there is a phi. */
  lemma MeetingHasPhi(f: Func, slotOf: map<Id, Slot>, x: Slot, p: seq<Block>, q: seq<Block>, b: Block)
    requires WellFormed(f.graph) && PhisClosed(f, slotOf)
    requires WalkTo(f.graph, p, b) && |p| >= 2 && StoresTo(f, p[0], x) && Reachable(f.graph, p[0])
    requires WalkTo(f.graph, q, b) && |q| >= 2 && StoresTo(f, q[0], x) && Reachable(f.graph, q[0])
    requires forall i, j | 0 <= i < |p| && 0 <= j < |q| && p[i] == q[j] :: i == |p| - 1 && j == |q| - 1
    ensures HasPhi(f, slotOf, b, x)
  {
    var u, v := p[|p| - 2], q[|q| - 2];
    var i := StoreWalkCovered(f, slotOf, x, p[..|p| - 1], u);
    var j := StoreWalkCovered(f, slotOf, x, q[..|q| - 1], v);
    assert Edge(f.graph, u, p[|p| - 2 + 1]) && Edge(f.graph, v, q[|q| - 2 + 1]);
    SuccReachable(f.graph, u, b);
    DominatorReachable(f.graph, p[i], u);
    DominatorReachable(f.graph, q[j], v);
    if StrictlyDominates(f.graph, p[i], b) && StrictlyDominates(f.graph, q[j], b) {
      DominatorsLinear(f.graph, p[i], q[j], b);
      if Dominates(f.graph, p[i], q[j]) {
        MeetingApart(f.graph, p, b, i, q[j]);
      } else {
        MeetingApart(f.graph, q, b, j, p[i]);
      }
    } else if !StrictlyDominates(f.graph, p[i], b) {
      assert InFrontier(f.graph, p[i], b);
    } else {
      assert InFrontier(f.graph, q[j], b);
    }
  }

  /** A block that a strictly dominates and that a walk from a to b avoids does not dominate b. */
  lemma MeetingApart(g: Graph, p: seq<Block>, b: Block, i: nat, a': Block)
    requires WalkTo(g, p, b) && i < |p| && a' !in p && Reachable(g, p[i]) && Reachable(g, a')
    requires Dominates(g, p[i], a')
    ensures !Dominates(g, a', b)
  {
    if Dominates(g, a', p[i]) {
      DominatesAntisymmetric(g, a', p[i]);
    }
    var r :| PathTo(g, r, p[i]) && a' !in r;
    var s := r + p[i + 1..];
    forall k | 0 <= k < |s| - 1 ensures Edge(g, s[k], s[k + 1]) {
      if k < |r| - 1 {
        assert Edge(g, r[k], r[k + 1]);
      } else {
        var l := k - |r| + 1 + i;
        assert s[k] == p[l] && s[k + 1] == p[l + 1];
        assert Edge(g, p[l], p[l + 1]);
      }
    }
    assert PathTo(g, s, b) && a' !in s;
  }
}
