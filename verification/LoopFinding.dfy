/** Loop detection: for each header, from inner to outer, the blocks behind its latches are
    collected; loops that were found before are taken over whole. */
module LoopFinding {
  import opened Common
  import opened Cfg
  import opened DominatorAnalysis
  import opened NaturalLoops
  import opened LoopNest

  class Loop {
    const header: Block
    var preheader: Option<Block>
    var blocks: seq<Block>
    var parent: Loop?
    var subLoops: seq<Loop>
    var latches: set<Block>

    constructor (header: Block)
      ensures this.header == header && preheader == None && blocks == [header] && parent == null && subLoops == [] && latches == {}
    {
      this.header, preheader, blocks, parent, subLoops, latches := header, None, [header], null, [], {};
    }

    method AddBlock(bb: Block)
      modifies this`blocks
      ensures blocks == old(blocks) + [bb]
    {
      blocks := blocks + [bb];
    }

    method AddLatches(bbs: set<Block>)
      modifies this`latches
      ensures latches == old(latches) + bbs
    {
      var list := SetToSeq(bbs);
      var i := 0;
      while i < |list|
        invariant 0 <= i <= |list| && latches == old(latches) + Elements(list[..i])
      {
        assert list[..i + 1] == list[..i] + [list[i]];
        assert Elements(list[..i + 1]) == Elements(list[..i]) + {list[i]};
        AddLatch(list[i]);
        i := i + 1;
      }
      assert list[..i] == list;
    }

    /** The blocks of another loop, one by one. */
    method AddBlocks(l: Loop)
      requires l != this
      modifies this`blocks
      ensures blocks == old(blocks) + l.blocks
    {
      var i := 0;
      while i < |l.blocks|
        invariant 0 <= i <= |l.blocks| && blocks == old(blocks) + l.blocks[..i]
      {
        assert l.blocks[..i + 1] == l.blocks[..i] + [l.blocks[i]];
        AddBlock(l.blocks[i]);
        i := i + 1;
      }
      assert l.blocks[..i] == l.blocks;
    }

    method SetPreheader(bb: Block)
      modifies this`preheader
      ensures preheader == Some(bb)
    {
      preheader := Some(bb);
    }

    method SetParent(l: Loop)
      modifies this`parent
      ensures parent == l
    {
      parent := l;
    }

    method AddSubLoop(l: Loop)
      modifies this`subLoops
      ensures subLoops == old(subLoops) + [l]
    {
      subLoops := subLoops + [l];
    }

    method AddLatch(bb: Block)
      modifies this`latches
      ensures latches == old(latches) + {bb}
    {
      latches := latches + {bb};
    }

    /** The object holds what the record says. */
    ghost predicate Matches(r: Rec)
      reads this
    {
      && preheader == None && blocks == r.blocks && latches == r.latches
      && (match r.parent case None => parent == null case Some(p) => parent != null && parent.header == p)
      && |subLoops| == |r.subs| && forall i | 0 <= i < |subLoops| :: subLoops[i].header == r.subs[i]
    }
  }

  type Loops = map<Block, Loop>

  ghost predicate KinKnown(of: Loops, l: Loop)
    reads l
  {
    && (l.parent != null ==> l.parent.header in of && of[l.parent.header] == l.parent)
    && forall s | s in l.subLoops :: s.header in of && of[s.header] == s
  }

  ghost predicate Recorded(of: Loops, rec: map<Block, Rec>)
    reads of.Values
  {
    && (forall h :: h in rec <==> h in of)
    && (forall h | h in of :: of[h].Matches(rec[h]) && KinKnown(of, of[h]))
  }

  /** Every loop is in the list once and is known by its header. */
  ghost predicate Listed(of: Loops, loops: seq<Loop>) {
    && (forall h | h in of :: of[h].header == h && of[h] in loops) && (forall l | l in loops :: l.header in of && of[l.header] == l) && NoDuplicates(loops)
  }

  /** The map is to the loops of the nest. */
  ghost predicate Mapped(of: Loops, bbToLoop: Loops, inner: map<Block, Block>) {
    && (forall b :: b in bbToLoop <==> b in inner)
    && (forall b | b in bbToLoop :: bbToLoop[b].header == inner[b] && bbToLoop[b].header in of && of[bbToLoop[b].header] == bbToLoop[b])
  }

  class LoopDetection {
    var loops: seq<Loop>
    var bbToLoop: Loops
    var dominators: Dominators
    ghost var of: Loops
    ghost var nest: Nest

    constructor ()
      ensures Valid() && of == map[] && nest == Nest(map[], map[]) && fresh(dominators) && dominators.Valid()
      ensures dominators.postOrder == map[] && dominators.domFrontier == map[] && dominators.domTreeSucc == map[]
    {
      loops, bbToLoop, of, nest := [], map[], map[], Nest(map[], map[]);
      dominators := new Dominators();
    }

    /** The objects hold what the nest says. */
    ghost predicate Valid()
      reads this, of.Values
    {
      Listed(of, loops) && Mapped(of, bbToLoop, nest.inner) && Recorded(of, nest.rec)
    }

    /** A block that is in no loop yet. */
    method TakeBlock(bb: Block, loop: Loop)
      requires Valid() && loop.header in of && of[loop.header] == loop && bb !in bbToLoop
      modifies this`bbToLoop, this`nest, loop`blocks
      ensures Valid() && loop.header in old(nest).rec && nest == BlockNest(old(nest), loop.header, bb)
    {
      hide Listed, Mapped, Recorded;
      ListedHeaders(of, loops);
      RecordAll(of, nest.rec);
      MappedBlock(of, bbToLoop, nest.inner, bb, loop);
      ghost var rec := BlockNest(nest, loop.header, bb).rec;
      loop.AddBlock(bb);
      forall h | h in of ensures of[h].Matches(rec[h]) && KinKnown(of, of[h]) {
        assert old(of[h].Matches(nest.rec[h]) && KinKnown(of, of[h])) && (h != loop.header ==> of[h] != loop);
      }
      RecordIntro(of, rec);
      bbToLoop := bbToLoop[bb := loop];
      nest := BlockNest(nest, loop.header, bb);
    }

    /** A loop that has been found before, with all its blocks. */
    method TakeLoop(loop: Loop, subLoop: Loop)
      requires Valid() && loop.header in of && of[loop.header] == loop && subLoop.header in of && of[subLoop.header] == subLoop && subLoop != loop
      requires subLoop.parent == null
      modifies this`nest, loop`blocks, loop`subLoops, subLoop`parent
      ensures Valid() && loop.header in old(nest).rec && subLoop.header in old(nest).rec
      ensures nest == AdoptNest(old(nest), loop.header, subLoop.header)
    {
      hide Listed, Mapped, Recorded;
      ListedHeaders(of, loops);
      RecordAll(of, nest.rec);
      ghost var rec := AdoptNest(nest, loop.header, subLoop.header).rec;
      subLoop.SetParent(loop);
      loop.AddSubLoop(subLoop);
      loop.AddBlocks(subLoop);
      assert loop.Matches(rec[loop.header]) && subLoop.Matches(rec[subLoop.header]);
      assert KinKnown(of, loop) && KinKnown(of, subLoop);
      forall h | h in of && h != loop.header && h != subLoop.header ensures of[h].Matches(rec[h]) && KinKnown(of, of[h]) {
        assert old(of[h].Matches(nest.rec[h]) && KinKnown(of, of[h])) && of[h] != loop && of[h] != subLoop;
      }
      RecordIntro(of, rec);
      nest := AdoptNest(nest, loop.header, subLoop.header);
    }

    /** The outermost loop that has this one. */
    method Outermost(g: Graph, bb: Block, loop: Loop, ghost ks: set<Block>, ghost n0: Nest, ghost adopted: set<Block>, ghost work: seq<Block>)
      returns (subLoop: Loop)
      requires Valid() && loop.header in of && of[loop.header] == loop
      requires Growing(g, ks, n0, loop.header, nest, adopted, work) && bb in bbToLoop && bbToLoop[bb] != loop
      ensures subLoop.header in of && of[subLoop.header] == subLoop && HasBlock(nest, subLoop.header, bb)
      ensures subLoop == loop || subLoop.parent == null
    {
      hide Growing, Around;
      ClimbStart(g, ks, n0, loop.header, nest, adopted, work, bb);
      subLoop := bbToLoop[bb];
      while subLoop.parent != null
        invariant subLoop.header in of && of[subLoop.header] == subLoop && HasBlock(nest, subLoop.header, bb)
        decreases if subLoop == loop then 0 else 1, |Around(g, ks, subLoop.header)|
      {
        NoParent(g, ks, n0, loop.header, nest, adopted, work);
        assert of[subLoop.header].Matches(nest.rec[subLoop.header]) && KinKnown(of, subLoop);
        ClimbUp(g, ks, n0, loop.header, nest, adopted, work, bb, subLoop.header);
        subLoop := subLoop.parent;
      }
    }

    /** One block of the work list: new, or in a loop that was found before, or had already. */
    method Visit(g: Graph, bb: Block, loop: Loop, ghost ks: set<Block>, ghost n0: Nest, ghost adopted: set<Block>, ghost rest: seq<Block>)
      returns (more: seq<Block>, ghost adopted': set<Block>)
      requires Valid() && loop.header in of && of[loop.header] == loop
      requires Growing(g, ks, n0, loop.header, nest, adopted, rest + [bb])
      modifies this`bbToLoop, this`nest, of.Values
      ensures Valid() && Growing(g, ks, n0, loop.header, nest, adopted', rest + more)
      ensures || Unmapped(g, nest) < Unmapped(g, old(nest))
              || (Unmapped(g, nest) == Unmapped(g, old(nest)) && Unadopted(ks, adopted') < Unadopted(ks, adopted))
              || (nest == old(nest) && adopted' == adopted && more == [])
    {
      hide Growing, Listed, Mapped, Recorded, Edge, Unadopted, Unmapped;
      more, adopted' := [], adopted;
      assert rest + [] == rest;
      MapFacts(of, bbToLoop, nest, bb);
      if bb !in bbToLoop {
        NewBlock(g, ks, n0, loop.header, nest, adopted, rest, bb);
        more := g.pre[bb];
        GrowBlock(g, ks, n0, loop.header, nest, adopted, rest, bb, more);
        TakeBlock(bb, loop);
      } else if bbToLoop[bb] != loop {
        var subLoop := Outermost(g, bb, loop, ks, n0, adopted, rest + [bb]);
        if subLoop == loop {
          GrowSkip(g, ks, n0, loop.header, nest, adopted, rest, bb);
        } else {
          RecordFacts(of, nest.rec, subLoop);
          BlockIn(g, ks, n0, loop.header, nest, adopted, rest + [bb], subLoop.header, bb);
          KnownLoop(g, ks, n0, loop.header, nest, adopted, rest + [bb], subLoop.header);
          more := g.pre[subLoop.header];
          GrowLoop(g, ks, n0, loop.header, nest, adopted, rest, bb, subLoop.header, more);
          RecordFacts(of, nest.rec, loop);
          SameUnmapped(g, nest, loop.header, subLoop.header);
          TakeLoop(loop, subLoop);
          adopted' := adopted + {subLoop.header};
        }
      } else {
        ClimbStart(g, ks, n0, loop.header, nest, adopted, rest + [bb], bb);
        GrowSkip(g, ks, n0, loop.header, nest, adopted, rest, bb);
      }
    }

    /** Backwards from the latches, until nothing is left to look at. */
    method DiscoverLoopAndSubLoops(g: Graph, latches: set<Block>, loop: Loop, ghost ks: set<Block>, ghost n0: Nest)
      requires Valid() && loop.header in of && of[loop.header] == loop
      requires NewHeader(g, ks, loop.header) && NestOk(g, ks, n0) && nest == StartNest(n0, loop.header, latches)
      requires forall l :: l in latches <==> IsLatch(g, loop.header, l)
      modifies this`bbToLoop, this`nest, of.Values
      ensures Valid() && NestOk(g, ks + {loop.header}, nest)
    {
      hide Growing, NestOk, NewHeader, Listed, Mapped, Recorded, Edge, Unadopted, Unmapped, NoDuplicates;
      var workList := SetToSeq(latches);
      GrowStart(g, ks, n0, loop.header, latches, workList);
      ghost var adopted: set<Block> := {};
      while workList != []
        invariant Valid() && Growing(g, ks, n0, loop.header, nest, adopted, workList)
        decreases Unmapped(g, nest), Unadopted(ks, adopted), |workList|
      {
        var bb := workList[|workList| - 1];
        var rest := workList[..|workList| - 1];
        assert workList == rest + [bb];
        var more;
        more, adopted := Visit(g, bb, loop, ks, n0, adopted, rest);
        workList := rest + more;
      }
      GrowEnd(g, ks, n0, loop.header, nest, adopted);
    }

    /** The predecessors that the block dominates. */
    method FindLatches(g: Graph, bb: Block) returns (latches: set<Block>)
      requires LoopGraph(g) && dominators.Analysed(g) && Reachable(g, bb)
      ensures forall l :: l in latches <==> IsLatch(g, bb, l)
    {
      hide dominators.Analysed, WellFormed, Reachable, Dominates;
      PredKnown(g, bb);
      latches := {};
      var i := 0;
      while i < |g.pre[bb]|
        invariant 0 <= i <= |g.pre[bb]| && forall l :: l in latches <==> l in g.pre[bb][..i] && Dominates(g, bb, l)
      {
        var pred := g.pre[bb][i];
        assert pred in g.pre[bb];
        assert g.pre[bb][..i + 1] == g.pre[bb][..i] + [pred];
        if dominators.IsDominate(g, bb, pred) {
          latches := latches + {pred};
        }
        i := i + 1;
      }
      assert g.pre[bb][..i] == g.pre[bb];
    }

    /** A new loop, with its header and latches. */
    method NewLoop(bb: Block, latches: set<Block>) returns (loop: Loop)
      requires Valid() && bb !in of
      modifies this`bbToLoop, this`nest, this`of, this`loops
      ensures Valid() && nest == StartNest(old(nest), bb, latches) && fresh(loop) && loop.header == bb && of == old(of)[bb := loop]
    {
      hide Listed, Mapped, Recorded;
      loop := new Loop(bb);
      ghost var rec, inner := nest.rec, nest.inner;
      ListedMore(of, loops, bb, loop);
      MappedMore(of, bbToLoop, inner, bb, loop);
      bbToLoop := bbToLoop[bb := loop];
      loop.AddLatches(latches);
      RecordedMore(of, rec, bb, loop, latches);
      loops := loops + [loop];
      of := of[bb := loop];
      nest := StartNest(nest, bb, latches);
    }

    /** One block of the order, whose dominators come later: its loop, if it is a header. */
    method VisitBlock(g: Graph, order: seq<Block>, i: nat, ghost ks: set<Block>) returns (ghost ks': set<Block>)
      requires LoopGraph(g) && DominatorsLast(g, order) && i < |order| && dominators.Analysed(g)
      requires Valid() && NestOk(g, ks, nest) && forall h :: h in ks <==> h in order[..i] && IsHeader(g, h)
      modifies this`bbToLoop, this`nest, this`of, this`loops, of.Values
      ensures Valid() && NestOk(g, ks', nest) && forall h :: h in ks' <==> h in order[..i + 1] && IsHeader(g, h)
      ensures fresh(of.Values - old(of.Values))
    {
      hide Listed, Mapped, Recorded, NestOk, LoopGraph, IsHeader, NewHeader, DominatorsLast, dominators.Analysed;
      var bb := order[i];
      assert order[..i + 1] == order[..i] + [bb];
      InOrder(g, order, i);
      var latches := FindLatches(g, bb);
      ks' := ks;
      if latches != {} {
        HeaderFound(g, ks, order, i, latches);
        NestKeys(g, ks, nest);
        KeysOf(of, nest.rec);
        ghost var n0 := nest;
        var loop := NewLoop(bb, latches);
        assert of.Values <= old(of).Values + {loop};
        DiscoverLoopAndSubLoops(g, latches, loop, ks, n0);
        ks' := ks + {bb};
      } else {
        NoHeader(g, bb, latches);
      }
    }

    /** The loops of the function are exactly its natural loops, and so is their nesting. */
    method RunOnFunc(g: Graph) returns (outcome: Outcome)
      requires WellFormed(g) && Valid() && of == map[] && nest == Nest(map[], map[])
      requires dominators.Valid() && Disjoint(dominators.postOrder.Keys, g.blocks)
      requires Disjoint(dominators.domFrontier.Keys + dominators.domTreeSucc.Keys, g.blocks)
      modifies this, dominators
      ensures outcome.Finished? <==> ReachableClosedUnderPred(g)
      ensures fresh(of.Values)
      ensures outcome.Finished? ==> Valid() && NestOk(g, nest.rec.Keys, nest) && forall h :: h in nest.rec <==> IsHeader(g, h)
    {
      hide Listed, Mapped, Recorded, NestOk, WellFormed, Disjoint, IsHeader, DominatorsLast, dominators.Analysed, ReachableClosedUnderPred;
      outcome := dominators.RunOnFunc(g);
      if outcome.OutOfRange? {
        return;
      }
      var order := dominators.domPostOrder;
      AnalysedOrder(g);
      ghost var ks: set<Block> := {};
      NestNone(g);
      var i := 0;
      while i < |order|
        invariant 0 <= i <= |order| && Valid() && NestOk(g, ks, nest) && fresh(of.Values)
        invariant dominators == old(dominators) && dominators.Analysed(g)
        invariant forall h :: h in ks <==> h in order[..i] && IsHeader(g, h)
      {
        ks := VisitBlock(g, order, i, ks);
        i := i + 1;
      }
      assert order[..i] == order;
      NestKeys(g, ks, nest);
      AllHeaders(g, ks, order);
    }

    lemma AnalysedOrder(g: Graph)
      requires dominators.Analysed(g)
      ensures DominatorsLast(g, dominators.domPostOrder)
    {
    }
  }

  lemma PredKnown(g: Graph, bb: Block)
    requires LoopGraph(g) && Reachable(g, bb)
    ensures bb in g.pre && forall u :: (u in g.pre[bb] <==> Edge(g, u, bb)) && (u in g.pre[bb] ==> Reachable(g, u))
  {
    ReachableInBlocks(g, bb);
  }

  lemma ListedMore(of: Loops, loops: seq<Loop>, bb: Block, loop: Loop)
    requires Listed(of, loops) && loop.header == bb && bb !in of
    ensures Listed(of[bb := loop], loops + [loop])
  {
    assert loop !in loops;
  }

  lemma MappedBlock(of: Loops, bbToLoop: Loops, inner: map<Block, Block>, bb: Block, loop: Loop)
    requires Mapped(of, bbToLoop, inner) && loop.header in of && of[loop.header] == loop
    ensures Mapped(of, bbToLoop[bb := loop], inner[bb := loop.header])
  {
  }

  lemma MappedMore(of: Loops, bbToLoop: Loops, inner: map<Block, Block>, bb: Block, loop: Loop)
    requires Mapped(of, bbToLoop, inner) && loop.header == bb && bb !in of
    ensures Mapped(of[bb := loop], bbToLoop[bb := loop], inner[bb := bb])
  {
  }

  lemma RecordedMore(of: Loops, rec: map<Block, Rec>, bb: Block, loop: Loop, latches: set<Block>)
    requires Recorded(of, rec) && bb !in of && loop.header == bb && loop.Matches(Rec([bb], None, [], latches))
    ensures Recorded(of[bb := loop], rec[bb := Rec([bb], None, [], latches)])
  {
  }

  lemma KeysOf(of: Loops, rec: map<Block, Rec>)
    requires Recorded(of, rec)
    ensures forall h :: h in of <==> h in rec
  {
  }

  lemma NestNone(g: Graph)
    ensures NestOk(g, {}, Nest(map[], map[]))
  {
    assert forall b :: !InSome(g, {}, b);
  }

  lemma InOrder(g: Graph, order: seq<Block>, i: nat)
    requires DominatorsLast(g, order) && i < |order|
    ensures Reachable(g, order[i])
  {
  }

  lemma HeaderFound(g: Graph, ks: set<Block>, order: seq<Block>, i: nat, latches: set<Block>)
    requires LoopGraph(g) && DominatorsLast(g, order) && i < |order| && latches != {} && forall l :: l in latches <==> IsLatch(g, order[i], l)
    requires forall h :: h in ks <==> h in order[..i] && IsHeader(g, h)
    ensures NewHeader(g, ks, order[i]) && IsHeader(g, order[i]) && order[i] !in ks
  {
    var h := order[i];
    assert (forall l :: l !in latches) ==> latches == {};
    forall k | k in ks ensures k != h && !Dominates(g, k, h) {
      var j :| 0 <= j < i && order[j] == k;
    }
  }

  lemma NoHeader(g: Graph, bb: Block, latches: set<Block>)
    requires latches == {} && forall l :: l in latches <==> IsLatch(g, bb, l)
    ensures !IsHeader(g, bb)
  {
  }

  lemma AllHeaders(g: Graph, ks: set<Block>, order: seq<Block>)
    requires DominatorsLast(g, order) && forall h :: h in ks <==> h in order && IsHeader(g, h)
    ensures forall h :: h in ks <==> IsHeader(g, h)
  {
  }

  ghost function Unmapped(g: Graph, n: Nest): nat {
    |Elements(g.blocks) - n.inner.Keys|
  }

  ghost function Unadopted(ks: set<Block>, adopted: set<Block>): nat {
    |ks - adopted|
  }

  lemma ListedHeaders(of: Loops, loops: seq<Loop>)
    requires Listed(of, loops)
    ensures forall h | h in of :: of[h].header == h
  {
  }

  lemma MapFacts(of: Loops, bbToLoop: Loops, n: Nest, bb: Block)
    requires Mapped(of, bbToLoop, n.inner)
    ensures bb in bbToLoop <==> bb in n.inner
    ensures bb in bbToLoop ==> bbToLoop[bb].header == n.inner[bb] && bbToLoop[bb].header in of && of[bbToLoop[bb].header] == bbToLoop[bb]
  {
  }

  lemma RecordAll(of: Loops, rec: map<Block, Rec>)
    requires Recorded(of, rec)
    ensures forall h :: h in rec <==> h in of
    ensures forall h | h in of :: of[h].Matches(rec[h]) && KinKnown(of, of[h])
  {
  }

  lemma RecordIntro(of: Loops, rec: map<Block, Rec>)
    requires (forall h :: h in rec <==> h in of) && forall h | h in of :: of[h].Matches(rec[h]) && KinKnown(of, of[h])
    ensures Recorded(of, rec)
  {
  }

  lemma RecordFacts(of: Loops, rec: map<Block, Rec>, l: Loop)
    requires Recorded(of, rec) && l.header in of && of[l.header] == l
    ensures l.header in rec && l.Matches(rec[l.header]) && KinKnown(of, l)
  {
  }

  lemma NoParent(g: Graph, ks: set<Block>, n0: Nest, h: Block, n: Nest, adopted: set<Block>, work: seq<Block>)
    requires Growing(g, ks, n0, h, n, adopted, work)
    ensures h in n.rec && n.rec[h].parent.None?
  {
  }

  /** What is taken is a block of the function, whose predecessors are known. */
  lemma NewBlock(g: Graph, ks: set<Block>, n0: Nest, h: Block, n: Nest, adopted: set<Block>, rest: seq<Block>, bb: Block)
    requires Growing(g, ks, n0, h, n, adopted, rest + [bb]) && bb !in n.inner
    ensures bb in g.pre && (forall u :: u in g.pre[bb] <==> Edge(g, u, bb))
    ensures h in n.rec && Unmapped(g, BlockNest(n, h, bb)) < Unmapped(g, n)
  {
    hide InLoop, Adopted, OwnBlocks, Inners, OldRecs, NestOk, Growing, Pending;
    GrowParts(g, ks, n0, h, n, adopted, rest + [bb]);
    PendingIn(g, n, h, rest, bb);
    LoopDominated(g, h, bb);
    ReachableInBlocks(g, bb);
    var a, b := Elements(g.blocks) - BlockNest(n, h, bb).inner.Keys, Elements(g.blocks) - n.inner.Keys;
    assert bb in b && bb !in a;
    ProperSubsetSmaller(a, b);
  }

  lemma SameUnmapped(g: Graph, n: Nest, h: Block, t: Block)
    requires h in n.rec && t in n.rec
    ensures Unmapped(g, AdoptNest(n, h, t)) == Unmapped(g, n)
  {
  }

  lemma KnownLoop(g: Graph, ks: set<Block>, n0: Nest, h: Block, n: Nest, adopted: set<Block>, work: seq<Block>, t: Block)
    requires Growing(g, ks, n0, h, n, adopted, work) && t in n.rec && t != h && n.rec[t].parent.None?
    ensures t in g.pre && (forall u :: u in g.pre[t] <==> Edge(g, u, t))
    ensures Unadopted(ks, adopted + {t}) < Unadopted(ks, adopted)
  {
    hide Adopted, OwnBlocks, Pending, Inners, Unadopted, LoopGraph, IsHeader, RecOk;
    GrowParts(g, ks, n0, h, n, adopted, work);
    OldHeader(g, ks, n0, n, h, adopted, t);
    HeaderPreds(g, t);
    AdoptOne(ks, adopted, t);
  }

  lemma OldHeader(g: Graph, ks: set<Block>, n0: Nest, n: Nest, h: Block, adopted: set<Block>, t: Block)
    requires NestOk(g, ks, n0) && OldRecs(n0, n, h, adopted) && t in n.rec && t != h && n.rec[t].parent.None?
    ensures t in ks && t !in adopted && IsHeader(g, t)
  {
    hide InLoop, IsHeader, BlocksOk, ParentOk, SubsOk, InSome;
    assert RecOk(g, ks, n0, t);
  }

  lemma HeaderPreds(g: Graph, h: Block)
    requires LoopGraph(g) && IsHeader(g, h)
    ensures h in g.pre && forall u :: u in g.pre[h] <==> Edge(g, u, h)
  {
    hide Reachable, Dominates, ReachableClosedUnderPred;
    var l :| IsLatch(g, h, l);
    ReachableInBlocks(g, h);
  }

  lemma AdoptOne(ks: set<Block>, adopted: set<Block>, t: Block)
    requires t in ks && t !in adopted
    ensures Unadopted(ks, adopted + {t}) < Unadopted(ks, adopted)
  {
    var a, b := ks - (adopted + {t}), ks - adopted;
    assert t in b && b == a + {t};
  }
}
