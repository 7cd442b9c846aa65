/** What loop detection has found so far, and one loop while it grows. */
module LoopNest {
  import opened Common
  import opened Cfg
  import opened DominatorAnalysis
  import opened NaturalLoops

  /** A loop; loops are known by their headers. */
  datatype Rec = Rec(blocks: seq<Block>, parent: Option<Block>, subs: seq<Block>, latches: set<Block>)

  /** The loops, and for each block of a loop the innermost one. */
  datatype Nest = Nest(rec: map<Block, Rec>, inner: map<Block, Block>)

  /** h is the smallest of the loops that have b. */
  ghost predicate Innermost(g: Graph, ks: set<Block>, b: Block, h: Block) {
    h in ks && InLoop(g, h, b) && forall q | q in ks && InLoop(g, q, b) :: InLoop(g, q, h)
  }

  /** p is the smallest of the other loops that have h's header. */
  ghost predicate Encloses(g: Graph, ks: set<Block>, h: Block, p: Block) {
    p in ks && p != h && InLoop(g, p, h) && forall q | q in ks && q != h && InLoop(g, q, h) :: InLoop(g, q, p)
  }

  ghost predicate Outermost(g: Graph, ks: set<Block>, h: Block) {
    forall q | q in ks && q != h :: !InLoop(g, q, h)
  }

  ghost predicate BlocksOk(g: Graph, h: Block, r: Rec) {
    NoDuplicates(r.blocks) && (forall b :: b in r.blocks <==> InLoop(g, h, b)) && forall l :: l in r.latches <==> IsLatch(g, h, l)
  }

  ghost predicate ParentOk(g: Graph, ks: set<Block>, h: Block, r: Rec) {
    match r.parent
    case Some(p) => Encloses(g, ks, h, p)
    case None => Outermost(g, ks, h)
  }

  ghost predicate SubsOk(n: Nest, h: Block, r: Rec) {
    NoDuplicates(r.subs) && forall c :: c in r.subs <==> c in n.rec && n.rec[c].parent == Some(h)
  }

  ghost predicate RecOk(g: Graph, ks: set<Block>, n: Nest, h: Block) {
    h in n.rec && IsHeader(g, h) && BlocksOk(g, h, n.rec[h]) && ParentOk(g, ks, h, n.rec[h]) && SubsOk(n, h, n.rec[h])
  }

  ghost predicate InSome(g: Graph, ks: set<Block>, b: Block) {
    exists h :: h in ks && InLoop(g, h, b)
  }

  /** The loops with these headers are exactly right, and so is their nesting. */
  ghost predicate NestOk(g: Graph, ks: set<Block>, n: Nest) {
    && n.rec.Keys == ks && (forall h | h in ks :: RecOk(g, ks, n, h))
    && (forall b :: b in n.inner <==> InSome(g, ks, b))
    && forall b | b in n.inner :: Innermost(g, ks, b, n.inner[b])
  }

  // ----- one loop grows -----

  /** Headers are met after those that they dominate. */
  ghost predicate NewHeader(g: Graph, ks: set<Block>, h: Block) {
    LoopGraph(g) && IsHeader(g, h) && h !in ks && forall k | k in ks :: IsHeader(g, k) && !Dominates(g, k, h)
  }

  ghost predicate OldRecs(n0: Nest, n: Nest, h: Block, adopted: set<Block>) {
    && (forall k :: k in n.rec <==> k in n0.rec || k == h)
    && forall k | k in n0.rec && k != h :: n.rec[k] == n0.rec[k].(parent := if k in adopted then Some(h) else n0.rec[k].parent)
  }

  ghost predicate Inners(g: Graph, n0: Nest, n: Nest, h: Block) {
    && (forall b | b in n0.inner :: b in n.inner && n.inner[b] == n0.inner[b])
    && (forall b | b in n.inner && b !in n0.inner :: n.inner[b] == h && InLoop(g, h, b))
    && h in n.inner && h !in n0.inner
  }

  ghost predicate Adopted(g: Graph, n0: Nest, n: Nest, h: Block, adopted: set<Block>) {
    && (forall k | k in adopted :: k in n0.rec && k != h && n0.rec[k].parent.None? && InLoop(g, h, k))
    && h in n.rec && NoDuplicates(n.rec[h].subs) && (forall c :: c in n.rec[h].subs <==> c in adopted)
  }

  ghost predicate InAdopted(g: Graph, adopted: set<Block>, b: Block) {
    exists k :: k in adopted && InLoop(g, k, b)
  }

  ghost predicate OwnBlocks(g: Graph, n0: Nest, n: Nest, h: Block, adopted: set<Block>) {
    h in n.rec && NoDuplicates(n.rec[h].blocks) && forall b :: b in n.rec[h].blocks <==> (b in n.inner && b !in n0.inner) || InAdopted(g, adopted, b)
  }

  /** What is still to be looked at. */
  ghost predicate Pending(g: Graph, n: Nest, h: Block, work: seq<Block>) {
    && h in n.rec && (forall b | b in work :: InLoop(g, h, b))
    && (forall u, b | Edge(g, u, b) && b in n.rec[h].blocks && b != h :: u in n.rec[h].blocks || u in work)
    && (forall l | IsLatch(g, h, l) :: l in n.rec[h].blocks || l in work)
  }

  ghost predicate Growing(g: Graph, ks: set<Block>, n0: Nest, h: Block, n: Nest, adopted: set<Block>, work: seq<Block>) {
    && NewHeader(g, ks, h) && NestOk(g, ks, n0) && OldRecs(n0, n, h, adopted) && Inners(g, n0, n, h)
    && h in n.rec && n.rec[h].parent.None? && (forall l :: l in n.rec[h].latches <==> IsLatch(g, h, l))
    && Adopted(g, n0, n, h, adopted) && OwnBlocks(g, n0, n, h, adopted) && Pending(g, n, h, work)
  }

  function StartNest(n: Nest, h: Block, latches: set<Block>): Nest {
    Nest(n.rec[h := Rec([h], None, [], latches)], n.inner[h := h])
  }

  function BlockNest(n: Nest, h: Block, bb: Block): Nest
    requires h in n.rec
  {
    Nest(n.rec[h := n.rec[h].(blocks := n.rec[h].blocks + [bb])], n.inner[bb := h])
  }

  function AdoptNest(n: Nest, h: Block, t: Block): Nest
    requires h in n.rec && t in n.rec
  {
    var r := n.rec[h];
    n.(rec := n.rec[t := n.rec[t].(parent := Some(h))][h := r.(blocks := r.blocks + n.rec[t].blocks, subs := r.subs + [t])])
  }

  lemma GrowStart(g: Graph, ks: set<Block>, n0: Nest, h: Block, latches: set<Block>, work: seq<Block>)
    requires NewHeader(g, ks, h) && NestOk(g, ks, n0) && (forall l :: l in latches <==> IsLatch(g, h, l)) && (forall b :: b in work <==> b in latches)
    ensures Growing(g, ks, n0, h, StartNest(n0, h, latches), {}, work)
  {
    hide InLoop, IsLatch, LoopGraph, Edge, NestOk, IsHeader;
    var n := StartNest(n0, h, latches);
    HeaderInLoop(g, h);
    assert h !in n0.inner by {
      if h in n0.inner {
        InnerInSome(g, ks, n0, h);
        var k :| k in ks && InLoop(g, k, h);
        LoopDominated(g, k, h);
      }
    }
    assert n.rec[h].blocks == [h] && n.rec[h].subs == [];
    assert OldRecs(n0, n, h, {}) by {
      NestKeys(g, ks, n0);
    }
    forall b | b in work ensures InLoop(g, h, b) {
      LatchInLoop(g, h, b);
    }
    assert Pending(g, n, h, work);
    assert Inners(g, n0, n, h) && Adopted(g, n0, n, h, {}) && OwnBlocks(g, n0, n, h, {});
    GrowWhole(g, ks, n0, h, n, {}, work);
  }

  lemma InnerInSome(g: Graph, ks: set<Block>, n: Nest, b: Block)
    requires NestOk(g, ks, n) && b in n.inner
    ensures InSome(g, ks, b)
  {
  }

  lemma NestKeys(g: Graph, ks: set<Block>, n: Nest)
    requires NestOk(g, ks, n)
    ensures n.rec.Keys == ks
  {
  }

  /** A loop in a loop is part of it. */
  lemma InnerLoop(g: Graph, q: Block, p: Block)
    requires LoopGraph(g) && InLoop(g, q, p) && IsHeader(g, p)
    ensures forall x | InLoop(g, p, x) :: InLoop(g, q, x)
  {
    if q != p {
      LoopDominated(g, q, p);
      if Dominates(g, p, q) {
        DominatesAntisymmetric(g, q, p);
      }
      LoopsNest(g, p, q, p);
    }
  }

  /** Two outermost loops have no block in common. */
  lemma OutermostApart(g: Graph, ks: set<Block>, p: Block, q: Block, b: Block)
    requires LoopGraph(g) && p in ks && q in ks && Outermost(g, ks, p) && Outermost(g, ks, q) && InLoop(g, p, b) && InLoop(g, q, b)
    ensures p == q
  {
    if p != q {
      LoopDominated(g, p, b);
      LoopDominated(g, q, b);
      if Dominates(g, p, q) && Dominates(g, q, p) {
        DominatorReachable(g, q, b);
        DominatesAntisymmetric(g, p, q);
      } else if !Dominates(g, p, q) {
        LoopsNest(g, p, q, b);
      } else {
        LoopsNest(g, q, p, b);
      }
    }
  }

  /** A block that is in no loop yet. */
  lemma GrowBlock(g: Graph, ks: set<Block>, n0: Nest, h: Block, n: Nest, adopted: set<Block>, rest: seq<Block>, bb: Block, preds: seq<Block>)
    requires Growing(g, ks, n0, h, n, adopted, rest + [bb]) && bb !in n.inner && forall u :: u in preds <==> Edge(g, u, bb)
    ensures Growing(g, ks, n0, h, BlockNest(n, h, bb), adopted, rest + preds)
  {
    hide NestOk, IsHeader, InLoop, IsLatch, LoopGraph, Edge;
    var n' := BlockNest(n, h, bb);
    assert bb in rest + [bb] && bb != h;
    forall b ensures b in n'.rec[h].blocks <==> b in n.rec[h].blocks || b == bb {
    }
    assert bb !in n.rec[h].blocks by {
      if InAdopted(g, adopted, bb) {
        var k :| k in adopted && InLoop(g, k, bb);
        MappedInLoop(g, ks, n0, k, bb);
      }
    }
    assert forall b :: b in rest + preds <==> b in rest || b in preds;
    forall b | b in rest + preds ensures InLoop(g, h, b) {
      if b in preds {
        LoopPred(g, h, b, bb);
      }
    }
  }

  lemma MappedInLoop(g: Graph, ks: set<Block>, n0: Nest, k: Block, b: Block)
    requires NestOk(g, ks, n0) && k in n0.rec && InLoop(g, k, b)
    ensures b in n0.inner
  {
    assert InSome(g, ks, b);
  }

  /** A block that the loop has already. */
  lemma GrowSkip(g: Graph, ks: set<Block>, n0: Nest, h: Block, n: Nest, adopted: set<Block>, rest: seq<Block>, bb: Block)
    requires Growing(g, ks, n0, h, n, adopted, rest + [bb]) && bb in n.rec[h].blocks
    ensures Growing(g, ks, n0, h, n, adopted, rest)
  {
    hide NestOk, NewHeader, OldRecs, Inners, Adopted, OwnBlocks;
    assert forall b :: b in rest + [bb] <==> b in rest || b == bb;
  }

  /** A whole loop that was found before. */
  lemma GrowLoop(g: Graph, ks: set<Block>, n0: Nest, h: Block, n: Nest, adopted: set<Block>, rest: seq<Block>, bb: Block, t: Block, preds: seq<Block>)
    requires Growing(g, ks, n0, h, n, adopted, rest + [bb]) && forall u :: u in preds <==> Edge(g, u, t)
    requires t in n.rec && t != h && n.rec[t].parent.None? && InLoop(g, t, bb)
    ensures Growing(g, ks, n0, h, AdoptNest(n, h, t), adopted + {t}, rest + preds)
  {
    hide InLoop, IsLatch, LoopGraph, Edge, Growing, NestOk, NewHeader, OldRecs, Inners, Adopted, OwnBlocks, Pending, BlocksOk, Outermost;
    GrowParts(g, ks, n0, h, n, adopted, rest + [bb]);
    var n' := AdoptNest(n, h, t);
    assert bb in rest + [bb] && InLoop(g, h, bb) by {
      PendingIn(g, n, h, rest, bb);
    }
    TopIsOutside(g, ks, n0, h, n, adopted, t, bb);
    AdoptedMore(g, ks, n0, h, n, adopted, t);
    LoopBlocks(g, ks, n0, h, n, n', adopted, t);
    LoopPending(g, ks, n0, h, n, n', adopted, rest, bb, t, preds);
    GrowWhole(g, ks, n0, h, n', adopted + {t}, rest + preds);
  }

  lemma PendingIn(g: Graph, n: Nest, h: Block, rest: seq<Block>, bb: Block)
    requires Pending(g, n, h, rest + [bb])
    ensures InLoop(g, h, bb)
  {
    assert bb in rest + [bb];
  }

  lemma AdoptedMore(g: Graph, ks: set<Block>, n0: Nest, h: Block, n: Nest, adopted: set<Block>, t: Block)
    requires OldRecs(n0, n, h, adopted) && Adopted(g, n0, n, h, adopted) && Inners(g, n0, n, h) && h in n.rec && t in n.rec
    requires t in n0.rec && t != h && t !in adopted && n0.rec[t].parent.None? && InLoop(g, h, t) && n.rec[t] == n0.rec[t]
    ensures var n' := AdoptNest(n, h, t);
            && OldRecs(n0, n', h, adopted + {t}) && Adopted(g, n0, n', h, adopted + {t}) && Inners(g, n0, n', h)
            && h in n'.rec && n'.inner == n.inner && n'.rec[h].parent == n.rec[h].parent && n'.rec[h].latches == n.rec[h].latches
            && n'.rec[h].blocks == n.rec[h].blocks + n0.rec[t].blocks
  {
    hide InLoop;
    SubsAdded(n.rec[h].subs, adopted, t);
  }

  lemma GrowParts(g: Graph, ks: set<Block>, n0: Nest, h: Block, n: Nest, adopted: set<Block>, work: seq<Block>)
    requires Growing(g, ks, n0, h, n, adopted, work)
    ensures NewHeader(g, ks, h) && NestOk(g, ks, n0) && OldRecs(n0, n, h, adopted) && Inners(g, n0, n, h) && LoopGraph(g)
    ensures h in n.rec && n.rec[h].parent.None? && (forall l :: l in n.rec[h].latches <==> IsLatch(g, h, l))
    ensures Adopted(g, n0, n, h, adopted) && OwnBlocks(g, n0, n, h, adopted) && Pending(g, n, h, work)
  {
  }

  lemma GrowWhole(g: Graph, ks: set<Block>, n0: Nest, h: Block, n: Nest, adopted: set<Block>, work: seq<Block>)
    requires NewHeader(g, ks, h) && NestOk(g, ks, n0) && OldRecs(n0, n, h, adopted) && Inners(g, n0, n, h)
    requires h in n.rec && n.rec[h].parent.None? && (forall l :: l in n.rec[h].latches <==> IsLatch(g, h, l))
    requires Adopted(g, n0, n, h, adopted) && OwnBlocks(g, n0, n, h, adopted) && Pending(g, n, h, work)
    ensures Growing(g, ks, n0, h, n, adopted, work)
  {
  }

  lemma SubsAdded(subs: seq<Block>, adopted: set<Block>, t: Block)
    requires NoDuplicates(subs) && (forall c :: c in subs <==> c in adopted) && t !in adopted
    ensures NoDuplicates(subs + [t]) && forall c :: c in subs + [t] <==> c in adopted + {t}
  {
  }

  /** A loop without a parent is not in the growing one yet, but belongs into it. */
  lemma TopIsOutside(g: Graph, ks: set<Block>, n0: Nest, h: Block, n: Nest, adopted: set<Block>, t: Block, bb: Block)
    requires NewHeader(g, ks, h) && NestOk(g, ks, n0) && OldRecs(n0, n, h, adopted)
    requires t in n.rec && t != h && n.rec[t].parent.None? && InLoop(g, t, bb) && InLoop(g, h, bb)
    ensures t in n0.rec && t in ks && t !in adopted && n0.rec[t].parent.None? && Outermost(g, ks, t) && BlocksOk(g, t, n0.rec[t])
    ensures n.rec[t] == n0.rec[t] && InLoop(g, h, t) && forall x | InLoop(g, t, x) :: InLoop(g, h, x)
  {
    assert RecOk(g, ks, n0, t);
    LoopsNest(g, t, h, bb);
  }

  lemma LoopBlocks(g: Graph, ks: set<Block>, n0: Nest, h: Block, n: Nest, n': Nest, adopted: set<Block>, t: Block)
    requires NewHeader(g, ks, h) && NestOk(g, ks, n0) && OwnBlocks(g, n0, n, h, adopted) && Adopted(g, n0, n, h, adopted) && h in n.rec
    requires t in n0.rec && t in ks && t !in adopted && Outermost(g, ks, t) && BlocksOk(g, t, n0.rec[t])
    requires h in n'.rec && n'.rec[h].blocks == n.rec[h].blocks + n0.rec[t].blocks && n'.inner == n.inner
    ensures OwnBlocks(g, n0, n', h, adopted + {t})
  {
    hide InLoop, IsLatch, LoopGraph;
    var a, b := n.rec[h].blocks, n0.rec[t].blocks;
    forall x | x in a ensures x !in b {
      if x in b {
        MappedInLoop(g, ks, n0, t, x);
        var k :| k in adopted && InLoop(g, k, x);
        assert RecOk(g, ks, n0, k);
        OutermostApart(g, ks, k, t, x);
      }
    }
    JoinDistinct(a, b);
    forall x ensures x in a + b <==> (x in n.inner && x !in n0.inner) || InAdopted(g, adopted + {t}, x) {
      if InAdopted(g, adopted + {t}, x) && x !in b {
        var k :| k in adopted + {t} && InLoop(g, k, x);
        assert k in adopted;
      }
      if InAdopted(g, adopted, x) {
        var k :| k in adopted && InLoop(g, k, x);
        assert k in adopted + {t};
      }
      if x in b {
        assert t in adopted + {t};
      }
    }
  }

  lemma JoinDistinct(a: seq<Block>, b: seq<Block>)
    requires NoDuplicates(a) && NoDuplicates(b) && forall x | x in a :: x !in b
    ensures NoDuplicates(a + b)
  {
    var s := a + b;
    forall i, j | 0 <= i < j < |s| ensures s[i] != s[j] {
      if i < |a| <= j {
        assert s[i] in a && s[j] in b;
      }
    }
  }

  lemma LoopPending(g: Graph, ks: set<Block>, n0: Nest, h: Block, n: Nest, n': Nest, adopted: set<Block>, rest: seq<Block>, bb: Block, t: Block,
                    preds: seq<Block>)
    requires NewHeader(g, ks, h) && h in n.rec && Pending(g, n, h, rest + [bb]) && (forall u :: u in preds <==> Edge(g, u, t))
    requires t in n0.rec && t != h && BlocksOk(g, t, n0.rec[t]) && InLoop(g, t, bb) && InLoop(g, h, t) && forall x | InLoop(g, t, x) :: InLoop(g, h, x)
    requires h in n'.rec && n'.rec[h].blocks == n.rec[h].blocks + n0.rec[t].blocks
    ensures Pending(g, n', h, rest + preds)
  {
    hide InLoop, IsLatch, LoopGraph, Edge;
    var a, b := n.rec[h].blocks, n0.rec[t].blocks;
    assert forall x :: x in a + b <==> x in a || x in b;
    assert forall x :: x in rest + [bb] <==> x in rest || x == bb;
    assert forall x :: x in rest + preds <==> x in rest || x in preds;
    assert bb in b;
    forall x | x in rest + preds ensures InLoop(g, h, x) {
      if x in preds {
        LoopPred(g, h, x, t);
      }
    }
    forall u, x | Edge(g, u, x) && x in a + b && x != h ensures u in a + b || u in rest + preds {
      if x in b && x != t {
        LoopPred(g, t, u, x);
      }
    }
  }

  // ----- climbing to the outermost loop -----

  ghost predicate HasBlock(n: Nest, k: Block, b: Block) {
    k in n.rec && b in n.rec[k].blocks
  }

  ghost function Around(g: Graph, ks: set<Block>, k: Block): set<Block> {
    set q | q in ks && InLoop(g, q, k)
  }

  /** One step up: the parent has the block too, and fewer loops are around it. */
  lemma ClimbUp(g: Graph, ks: set<Block>, n0: Nest, h: Block, n: Nest, adopted: set<Block>, work: seq<Block>, bb: Block, k: Block)
    requires Growing(g, ks, n0, h, n, adopted, work) && k != h && HasBlock(n, k, bb) && n.rec[k].parent.Some?
    ensures var p := n.rec[k].parent.value; HasBlock(n, p, bb) && (p != h ==> |Around(g, ks, p)| < |Around(g, ks, k)|)
  {
    hide InLoop, IsLatch, LoopGraph, Edge, Growing;
    GrowParts(g, ks, n0, h, n, adopted, work);
    assert RecOk(g, ks, n0, k);
    var p := n.rec[k].parent.value;
    if k in adopted {
      assert InAdopted(g, adopted, bb);
    } else {
      assert p in ks && InLoop(g, p, k) && RecOk(g, ks, n0, p);
      InnerLoop(g, p, k);
      AroundFewer(g, ks, k, p);
    }
  }

  lemma AroundFewer(g: Graph, ks: set<Block>, k: Block, p: Block)
    requires LoopGraph(g) && k in ks && IsHeader(g, k) && IsHeader(g, p) && p != k && InLoop(g, p, k)
    ensures |Around(g, ks, p)| < |Around(g, ks, k)|
  {
    var a, b := Around(g, ks, p), Around(g, ks, k);
    InnerLoop(g, p, k);
    forall q | q in a ensures q in b {
      InnerLoop(g, q, p);
    }
    assert k in b;
    if InLoop(g, k, p) {
      LoopDominated(g, k, p);
      LoopDominated(g, p, k);
      DominatesAntisymmetric(g, k, p);
    }
    ProperSubsetSmaller(a, b);
  }

  /** The loop of a block that is in one. */
  lemma ClimbStart(g: Graph, ks: set<Block>, n0: Nest, h: Block, n: Nest, adopted: set<Block>, work: seq<Block>, bb: Block)
    requires Growing(g, ks, n0, h, n, adopted, work) && bb in n.inner
    ensures HasBlock(n, n.inner[bb], bb)
  {
    hide InLoop, IsLatch, LoopGraph, Edge, Growing;
    GrowParts(g, ks, n0, h, n, adopted, work);
    if bb in n0.inner {
      assert Innermost(g, ks, bb, n0.inner[bb]) && RecOk(g, ks, n0, n0.inner[bb]);
    }
  }

  lemma BlockIn(g: Graph, ks: set<Block>, n0: Nest, h: Block, n: Nest, adopted: set<Block>, work: seq<Block>, t: Block, bb: Block)
    requires Growing(g, ks, n0, h, n, adopted, work) && HasBlock(n, t, bb) && t != h
    ensures InLoop(g, t, bb)
  {
    hide InLoop, IsLatch, LoopGraph, Edge, Growing;
    GrowParts(g, ks, n0, h, n, adopted, work);
    assert RecOk(g, ks, n0, t);
  }

  // ----- the loop is complete -----

  lemma GrowEnd(g: Graph, ks: set<Block>, n0: Nest, h: Block, n: Nest, adopted: set<Block>)
    requires Growing(g, ks, n0, h, n, adopted, [])
    ensures NestOk(g, ks + {h}, n)
  {
    hide InLoop, IsLatch, LoopGraph, Edge, Growing, NestOk, RecOk, OldRecs, Inners, Adopted, OwnBlocks, Pending, Innermost, InSome;
    GrowParts(g, ks, n0, h, n, adopted, []);
    LoopComplete(g, ks, n0, h, n, adopted);
    forall k | k in ks + {h} ensures RecOk(g, ks + {h}, n, k) {
      if k == h {
        HeadComplete(g, ks, n0, h, n, adopted);
      } else {
        OldComplete(g, ks, n0, h, n, adopted, k);
      }
    }
    InnersComplete(g, ks, n0, h, n, adopted);
    KeysComplete(g, ks, n0, h, n, adopted);
    NestWhole(g, ks + {h}, n);
  }

  lemma NestWhole(g: Graph, ks: set<Block>, n: Nest)
    requires n.rec.Keys == ks && (forall h | h in ks :: RecOk(g, ks, n, h))
    requires (forall b :: b in n.inner <==> InSome(g, ks, b)) && forall b | b in n.inner :: Innermost(g, ks, b, n.inner[b])
    ensures NestOk(g, ks, n)
  {
    hide RecOk, InSome, Innermost;
  }

  lemma KeysComplete(g: Graph, ks: set<Block>, n0: Nest, h: Block, n: Nest, adopted: set<Block>)
    requires NestOk(g, ks, n0) && OldRecs(n0, n, h, adopted)
    ensures n.rec.Keys == ks + {h}
  {
    hide RecOk, InSome, Innermost;
    forall x ensures x in n.rec <==> x in ks + {h} {
      assert x in n0.rec <==> x in ks;
    }
  }

  /** The blocks are exactly those of the natural loop. */
  lemma LoopComplete(g: Graph, ks: set<Block>, n0: Nest, h: Block, n: Nest, adopted: set<Block>)
    requires NewHeader(g, ks, h) && NestOk(g, ks, n0) && Inners(g, n0, n, h) && h in n.rec
    requires Adopted(g, n0, n, h, adopted) && OwnBlocks(g, n0, n, h, adopted) && Pending(g, n, h, [])
    ensures forall b :: b in n.rec[h].blocks <==> InLoop(g, h, b)
  {
    hide InLoop, IsLatch, Edge;
    var s := Elements(n.rec[h].blocks);
    LoopLeastAll(g, h, s);
    forall b | b in n.rec[h].blocks ensures InLoop(g, h, b) {
      if InAdopted(g, adopted, b) {
        var k :| k in adopted && InLoop(g, k, b);
        InnerLoop(g, h, k);
      }
    }
  }

  lemma HeadComplete(g: Graph, ks: set<Block>, n0: Nest, h: Block, n: Nest, adopted: set<Block>)
    requires NewHeader(g, ks, h) && NestOk(g, ks, n0) && OldRecs(n0, n, h, adopted) && h in n.rec && n.rec[h].parent.None?
    requires (forall b :: b in n.rec[h].blocks <==> InLoop(g, h, b)) && (forall l :: l in n.rec[h].latches <==> IsLatch(g, h, l))
    requires Adopted(g, n0, n, h, adopted) && OwnBlocks(g, n0, n, h, adopted)
    ensures RecOk(g, ks + {h}, n, h)
  {
    hide InLoop, IsLatch, Edge;
    forall q | q in ks + {h} && q != h ensures !InLoop(g, q, h) {
      if InLoop(g, q, h) {
        LoopDominated(g, q, h);
      }
    }
    forall c | c in n0.rec ensures n0.rec[c].parent != Some(h) {
      assert RecOk(g, ks, n0, c);
    }
  }

  lemma OldComplete(g: Graph, ks: set<Block>, n0: Nest, h: Block, n: Nest, adopted: set<Block>, k: Block)
    requires NewHeader(g, ks, h) && NestOk(g, ks, n0) && OldRecs(n0, n, h, adopted) && h in n.rec && n.rec[h].parent.None? && k in ks && k != h
    requires Inners(g, n0, n, h) && Adopted(g, n0, n, h, adopted) && OwnBlocks(g, n0, n, h, adopted)
    requires forall b :: b in n.rec[h].blocks <==> InLoop(g, h, b)
    ensures RecOk(g, ks + {h}, n, k)
  {
    hide InLoop, IsLatch, Edge, LoopGraph;
    assert RecOk(g, ks, n0, k);
    var r := n0.rec[k];
    OldParent(g, ks, n0, h, n, adopted, k);
    forall c ensures c in r.subs <==> c in n.rec && n.rec[c].parent == Some(k) {
    }
  }

  lemma OldParent(g: Graph, ks: set<Block>, n0: Nest, h: Block, n: Nest, adopted: set<Block>, k: Block)
    requires NewHeader(g, ks, h) && NestOk(g, ks, n0) && OldRecs(n0, n, h, adopted) && k in ks && k != h && h in n.rec
    requires Inners(g, n0, n, h) && Adopted(g, n0, n, h, adopted) && OwnBlocks(g, n0, n, h, adopted)
    requires forall b :: b in n.rec[h].blocks <==> InLoop(g, h, b)
    ensures k in n.rec && ParentOk(g, ks + {h}, k, n.rec[k])
  {
    hide InLoop, IsLatch, Edge;
    assert RecOk(g, ks, n0, k);
    var p := n0.rec[k].parent;
    HeaderInLoop(g, k);
    if k in adopted {
      assert Encloses(g, ks + {h}, k, h);
    } else if p.Some? {
      if InLoop(g, h, k) {
        LoopsNest(g, p.value, h, k);
      }
      assert Encloses(g, ks + {h}, k, p.value);
    } else {
      MappedInLoop(g, ks, n0, k, k);
      forall a | a in adopted ensures !InLoop(g, a, k) {
        assert a in ks && a != k;
      }
      assert Outermost(g, ks + {h}, k);
    }
  }

  lemma HeaderInLoop(g: Graph, k: Block)
    requires IsHeader(g, k)
    ensures InLoop(g, k, k)
  {
  }

  lemma InnersComplete(g: Graph, ks: set<Block>, n0: Nest, h: Block, n: Nest, adopted: set<Block>)
    requires NewHeader(g, ks, h) && NestOk(g, ks, n0) && Inners(g, n0, n, h) && h in n.rec
    requires Adopted(g, n0, n, h, adopted) && OwnBlocks(g, n0, n, h, adopted) && forall b :: b in n.rec[h].blocks <==> InLoop(g, h, b)
    ensures forall b :: b in n.inner <==> InSome(g, ks + {h}, b)
    ensures forall b | b in n.inner :: Innermost(g, ks + {h}, b, n.inner[b])
  {
    hide InLoop, IsLatch, Edge;
    HeaderInLoop(g, h);
    forall b ensures b in n.inner <==> InSome(g, ks + {h}, b) {
      if b in n0.inner {
        var k :| k in ks && InLoop(g, k, b);
        assert k in ks + {h};
      } else if b in n.inner {
        assert h in ks + {h} && InLoop(g, h, b);
      }
      if InSome(g, ks + {h}, b) {
        var k :| k in ks + {h} && InLoop(g, k, b);
        forall a | a in adopted + {k} && a != h && InLoop(g, a, b) ensures b in n0.inner {
          MappedInLoop(g, ks, n0, a, b);
        }
      }
    }
    forall b | b in n.inner ensures Innermost(g, ks + {h}, b, n.inner[b]) {
      if b in n0.inner {
        var m := n0.inner[b];
        assert Innermost(g, ks, b, m);
        if InLoop(g, h, b) {
          LoopsNest(g, m, h, b);
        }
      } else {
        forall q | q in ks + {h} && InLoop(g, q, b) ensures InLoop(g, q, h) {
          if q != h {
            MappedInLoop(g, ks, n0, q, b);
          }
        }
      }
    }
  }
}
