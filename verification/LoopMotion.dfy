/** Loop-invariant code motion: the loops of a function, inner ones first; from each, the operations
    that use nothing of the loop are moved to a new block in front of it. */
module LoopMotion {
  import opened Common
  import opened Cfg
  import opened DominatorAnalysis
  import opened NaturalLoops
  import opened LoopNest
  import opened LoopFinding
  import opened Ir
  import opened Ssa
  import opened Hoisting
  import opened HoistedForm
  import opened InvariantLoops
  import opened LoopForm
  import opened LoopRewrite
  import opened InvariantSets
  import opened QuietLoops
  import opened StoresStay

  // ----- the loop objects while blocks are added to them -----

  ghost predicate LoopIs(of: Loops, n: Nest, listed: map<Block, seq<Block>>, done: set<Block>, l: Loop)
    reads l
  {
    && l.header in n.rec && l.header in listed && l.blocks == listed[l.header] && KinKnown(of, l)
    && (match n.rec[l.header].parent case None => l.parent == null case Some(m) => l.parent != null && l.parent.header == m)
    && |l.subLoops| == |n.rec[l.header].subs| && (forall i | 0 <= i < |l.subLoops| :: l.subLoops[i].header == n.rec[l.header].subs[i])
    && (l.header !in done ==> l.preheader == None)
  }

  ghost predicate Objects(of: Loops, n: Nest, listed: map<Block, seq<Block>>, done: set<Block>)
    reads of.Values
  {
    && (forall h :: h in of <==> h in n.rec)
    && forall h | h in of :: of[h].header == h && LoopIs(of, n, listed, done, of[h])
  }

  function ListsOf(rec: map<Block, Rec>): map<Block, seq<Block>> {
    map h | h in rec :: rec[h].blocks
  }

  lemma ObjectFacts(of: Loops, n: Nest, listed: map<Block, seq<Block>>, done: set<Block>, l: Loop)
    requires Objects(of, n, listed, done) && l.header in of && of[l.header] == l
    ensures l.header in n.rec && l.header in listed && l.blocks == listed[l.header] && |l.subLoops| == |n.rec[l.header].subs|
    ensures forall i | 0 <= i < |l.subLoops| :: l.subLoops[i].header == n.rec[l.header].subs[i] && l.subLoops[i].header in of && of[l.subLoops[i].header] == l.subLoops[i]
    ensures l.header !in done ==> l.preheader == None
    ensures match n.rec[l.header].parent
            case None => l.parent == null
            case Some(m) => l.parent != null && l.parent.header == m && m in of && of[m] == l.parent
  {
    assert LoopIs(of, n, listed, done, l);
  }

  lemma ObjectHeaders(of: Loops, n: Nest, listed: map<Block, seq<Block>>, done: set<Block>)
    requires Objects(of, n, listed, done)
    ensures (forall h :: h in of <==> h in n.rec) && forall h | h in of :: of[h].header == h
  {
  }

  // ----- collecting -----

  ghost predicate InBlocks(body: map<Block, seq<Instr>>, bs: seq<Block>, instr: Instr) {
    exists b :: b in bs && b in body && instr in body[b]
  }

  ghost predicate PhiInBlocks(phis: map<Block, seq<Phi>>, bs: seq<Block>, id: Id) {
    exists b, i :: b in bs && b in phis && 0 <= i < |phis[b]| && phis[b][i].id == id
  }

  ghost predicate InSubs(f: Func, subs: seq<Block>, instr: Instr) {
    exists s :: s in subs && OfLoop(f, s, instr)
  }

  ghost predicate PhiInSubs(f: Func, subs: seq<Block>, id: Id) {
    exists s :: s in subs && PhiOfLoop(f, s, id)
  }

  /** A loop's blocks and sub-loops have what the loop has. */
  lemma AllCollected(f: Func, impure: bool, next: Block, g0: Graph, n: Nest, listed: map<Block, seq<Block>>, done: set<Block>, h: Block)
    requires Shaped(f, impure, next, g0, n, listed, done) && h in n.rec && h in listed
    ensures forall i :: OfLoop(f, h, i) <==> InBlocks(f.body, listed[h], i) || InSubs(f, n.rec[h].subs, i)
    ensures forall id :: PhiOfLoop(f, h, id) <==> PhiInBlocks(f.phis, listed[h], id) || PhiInSubs(f, n.rec[h].subs, id)
  {
    hide InLoop, Fit, Nested, ListsOk, SameNest, LoopGraph, Inside, Settled, WellFormed;
    ShapedParts(f, impure, next, g0, n, listed, done);
    forall b ensures InLoop(f.graph, h, b) <==> b in listed[h] || exists s :: s in n.rec[h].subs && InLoop(f.graph, s, b) {
      BlockListed(f.graph, n, listed, h, b);
    }
    forall b | InLoop(f.graph, h, b) ensures b in f.graph.blocks && b in f.phis {
      InLoopBlock(f.graph, h, b);
    }
    forall id ensures PhiOfLoop(f, h, id) <==> PhiInBlocks(f.phis, listed[h], id) || PhiInSubs(f, n.rec[h].subs, id) {
      PhisCollected(f, listed[h], n.rec[h].subs, h, id);
    }
  }

  lemma PhisCollected(f: Func, bs: seq<Block>, subs: seq<Block>, h: Block, id: Id)
    requires forall b :: InLoop(f.graph, h, b) <==> b in bs || exists s :: s in subs && InLoop(f.graph, s, b)
    requires forall b | InLoop(f.graph, h, b) :: b in f.graph.blocks && b in f.phis
    ensures PhiOfLoop(f, h, id) <==> PhiInBlocks(f.phis, bs, id) || PhiInSubs(f, subs, id)
  {
    hide InLoop;
    if PhiOfLoop(f, h, id) {
      var b, i :| InLoop(f.graph, h, b) && PhiAt(f, id, b, i);
      if b !in bs {
        var s :| s in subs && InLoop(f.graph, s, b);
        assert PhiOfLoop(f, s, id);
      }
    }
    if PhiInBlocks(f.phis, bs, id) {
      var b, i :| b in bs && b in f.phis && 0 <= i < |f.phis[b]| && f.phis[b][i].id == id;
      assert InLoop(f.graph, h, b) && PhiAt(f, id, b, i);
    }
    if PhiInSubs(f, subs, id) {
      var s :| s in subs && PhiOfLoop(f, s, id);
      var b, i :| InLoop(f.graph, s, b) && PhiAt(f, id, b, i);
      assert InLoop(f.graph, h, b);
    }
  }

  lemma BlockListed(g: Graph, n: Nest, listed: map<Block, seq<Block>>, h: Block, b: Block)
    requires LoopGraph(g) && Nested(g, n) && ListsOk(g, n.rec.Keys, listed) && h in n.rec && h in listed
    ensures InLoop(g, h, b) <==> b in listed[h] || exists s :: s in n.rec[h].subs && InLoop(g, s, b)
  {
    hide InLoop, Nested, LoopGraph, ListsOk;
    ListsParts(g, n.rec.Keys, listed, h);
    if InLoop(g, h, b) && b !in listed[h] {
      var c :| c in n.rec.Keys && c != h && InLoop(g, h, c) && InLoop(g, c, b);
      var s := SubLoopOf(g, n, h, c);
      InLoopTransitive(g, s, c, b);
    }
    forall s | s in n.rec[h].subs && InLoop(g, s, b) ensures InLoop(g, h, b) {
      SubsSmaller(g, n, h, s);
      InLoopTransitive(g, h, s, b);
    }
  }

  class LoopInvariantCodeMotion {
    /** Whether this function is one that is not pure: its calls stay where they are. */
    const impure: bool
    var graph: Graph
    var phis: map<Block, seq<Phi>>
    var body: map<Block, seq<Instr>>
    var term: map<Block, Term>
    var nextBlock: Block
    var isLoopDone: set<Loop>

    constructor (f: Func, impure: bool, nextBlock: Block)
      ensures Code() == f && this.impure == impure && this.nextBlock == nextBlock && isLoopDone == {}
    {
      graph, phis, body, term := f.graph, f.phis, f.body, f.term;
      this.impure, this.nextBlock, isLoopDone := impure, nextBlock, {};
    }

    ghost function Code(): Func
      reads this
    {
      Func(graph, phis, body, term)
    }

    // ----- the instructions of a loop -----

    method CollectBlock(b: Block) returns (instrs: set<Instr>, phiIds: set<Id>)
      requires b in body && b in phis
      ensures forall i :: i in instrs <==> i in body[b]
      ensures forall id :: id in phiIds <==> exists i :: 0 <= i < |phis[b]| && phis[b][i].id == id
    {
      instrs, phiIds := {}, {};
      var i := 0;
      while i < |body[b]|
        invariant 0 <= i <= |body[b]| && forall x :: x in instrs <==> x in body[b][..i]
      {
        assert body[b][..i + 1] == body[b][..i] + [body[b][i]];
        instrs := instrs + {body[b][i]};
        i := i + 1;
      }
      assert body[b][..i] == body[b];
      i := 0;
      while i < |phis[b]|
        invariant 0 <= i <= |phis[b]| && forall id :: id in phiIds <==> exists k :: 0 <= k < i && phis[b][k].id == id
      {
        phiIds := phiIds + {phis[b][i].id};
        i := i + 1;
      }
    }

    method CollectBlocks(blocks: seq<Block>) returns (instrs: set<Instr>, phiIds: set<Id>)
      requires forall b | b in blocks :: b in body && b in phis
      ensures forall i :: i in instrs <==> InBlocks(body, blocks, i)
      ensures forall id :: id in phiIds <==> PhiInBlocks(phis, blocks, id)
    {
      instrs, phiIds := {}, {};
      var k := 0;
      while k < |blocks|
        invariant 0 <= k <= |blocks|
        invariant forall i :: i in instrs <==> InBlocks(body, blocks[..k], i)
        invariant forall id :: id in phiIds <==> PhiInBlocks(phis, blocks[..k], id)
      {
        var more, morePhis := CollectBlock(blocks[k]);
        OneMoreBlock(body, phis, blocks, k);
        instrs, phiIds := instrs + more, phiIds + morePhis;
        k := k + 1;
      }
      assert blocks[..k] == blocks;
    }

    /** All instructions of the loop, those of its sub-loops too. */
    method CollectLoopInfo(loop: Loop, ghost of: Loops, ghost g0: Graph, ghost n: Nest, ghost listed: map<Block, seq<Block>>, ghost done: set<Block>)
      returns (instrs: set<Instr>, phiIds: set<Id>)
      requires Objects(of, n, listed, done) && Shaped(Code(), impure, nextBlock, g0, n, listed, done)
      requires loop.header in of && of[loop.header] == loop
      ensures CollectedOk(Code(), loop.header, instrs, phiIds)
      decreases Inside(g0, n, loop.header)
    {
      hide Shaped, CollectedOk, Inside, InBlocks, PhiInBlocks, InSubs, PhiInSubs, PhiOfLoop, OfLoop, Objects, Fit, Nested, LoopGraph, SameNest, SsaForm, ListsOk, Settled,
        WellFormed;
      ghost var f, h := Code(), loop.header;
      ObjectFacts(of, n, listed, done, loop);
      ShapedParts(f, impure, nextBlock, g0, n, listed, done);
      ListedKnown(f, n, listed, h);
      AllCollected(f, impure, nextBlock, g0, n, listed, done, h);
      instrs, phiIds := CollectBlocks(loop.blocks);
      var j := 0;
      ghost var subs := n.rec[h].subs;
      NoSubs(f);
      while j < |loop.subLoops|
        invariant 0 <= j <= |loop.subLoops|
        invariant forall i :: i in instrs <==> InBlocks(body, loop.blocks, i) || InSubs(f, subs[..j], i)
        invariant forall id :: id in phiIds <==> PhiInBlocks(phis, loop.blocks, id) || PhiInSubs(f, subs[..j], id)
      {
        var sub := loop.subLoops[j];
        assert subs[j] in subs && sub.header == subs[j];
        SubsSmaller(g0, n, h, subs[j]);
        var more, morePhis := CollectLoopInfo(sub, of, g0, n, listed, done);
        CollectedParts(f, subs[j], more, morePhis);
        OneMoreSub(f, subs, j);
        instrs, phiIds := instrs + more, phiIds + morePhis;
        j := j + 1;
      }
      assert subs[..j] == subs;
      CollectedIntro(f, h, instrs, phiIds);
    }

    // ----- rewriting -----

    method RelabelPairs(pairs: seq<(Val, Block)>, blocks: seq<Block>, preheader: Block) returns (out: seq<(Val, Block)>)
      ensures out == Relabel(blocks, preheader, pairs)
    {
      out := pairs;
      var i := 0;
      while i < |pairs|
        invariant 0 <= i <= |pairs| && |out| == |pairs|
        invariant forall k | 0 <= k < |pairs| :: out[k] == if k < i && pairs[k].1 !in blocks then (pairs[k].0, preheader) else pairs[k]
      {
        if pairs[i].1 !in blocks {
          out := out[i := (pairs[i].0, preheader)];
        }
        i := i + 1;
      }
    }

    /** The pairs of the header's phis for blocks outside the loop are for the preheader now. */
    method RelabelPhis(loop: Loop, preheader: Block)
      requires loop.header in phis
      modifies this`phis
      ensures loop.header in phis && phis == old(phis)[loop.header := phis[loop.header]] && |phis[loop.header]| == |old(phis)[loop.header]|
      ensures forall k | 0 <= k < |phis[loop.header]| ::
                phis[loop.header][k] == Phi(old(phis)[loop.header][k].id, Relabel(loop.blocks, preheader, old(phis)[loop.header][k].pairs))
    {
      hide Relabel;
      var list := phis[loop.header];
      var k := 0;
      while k < |list|
        invariant 0 <= k <= |list| && loop.header in phis && phis == old(phis)[loop.header := phis[loop.header]] && |phis[loop.header]| == |list|
        invariant forall i | 0 <= i < |list| :: phis[loop.header][i] == if i < k then Phi(list[i].id, Relabel(loop.blocks, preheader, list[i].pairs)) else list[i]
      {
        var pairs := RelabelPairs(list[k].pairs, loop.blocks, preheader);
        phis := phis[loop.header := phis[loop.header][k := Phi(list[k].id, pairs)]];
        k := k + 1;
      }
    }

    /** A block from outside branches to the preheader instead. */
    method RedirectPred(pred: Block, header: Block, preheader: Block)
      requires pred in term && pred in graph.succ && preheader in graph.pre
      modifies this`term, this`graph
      ensures term == if old(term)[pred] == Br(header) then old(term)[pred := Br(preheader)] else old(term)
      ensures graph == old(graph).(succ := old(graph).succ[pred := Remaining(old(graph).succ[pred], {header}) + [preheader]],
                                   pre := old(graph).pre[preheader := old(graph).pre[preheader] + [pred]])
    {
      if term[pred] == Br(header) {
        term := term[pred := Br(preheader)];
      }
      graph := graph.(succ := graph.succ[pred := Remaining(graph.succ[pred], {header}) + [preheader]]);
      graph := graph.(pre := graph.pre[preheader := graph.pre[preheader] + [pred]]);
    }

    method RedirectPreds(loop: Loop, preheader: Block, ghost f: Func, ghost p: Plan)
      requires graph == WithBlock(f.graph, preheader) && term == f.term && p.header == loop.header && p.preheader == preheader
      requires PredsKnown(f, p, loop.blocks)
      modifies this`term, this`graph
      ensures term == f.term[p.outside := Br(preheader)]
      ensures p.header in f.graph.pre && graph.entry == f.graph.entry && graph.blocks == f.graph.blocks + [preheader]
      ensures graph.pre == f.graph.pre[preheader := [p.outside]][p.header := Remaining(f.graph.pre[p.header], {p.outside})]
      ensures graph.succ == f.graph.succ[preheader := []][p.outside := [preheader]]
    {
      var preds := graph.pre[loop.header];
      assert preds == f.graph.pre[p.header];
      var predToRemove: seq<Block> := [];
      var i := 0;
      while i < |preds|
        invariant 0 <= i <= |preds| && Redirecting(f, p, p.outside in preds[..i], graph, term, predToRemove)
      {
        var pred := preds[i];
        assert preds[..i + 1] == preds[..i] + [pred] && pred in preds;
        PredFacts(f, p, loop.blocks, i);
        if !(graph.succ[pred][0] == loop.header && pred in loop.blocks) {
          RedirectStep(f, p, loop.blocks, i, graph, term);
          RedirectPred(pred, loop.header, preheader);
          predToRemove := predToRemove + [pred];
        }
        i := i + 1;
      }
      assert preds[..i] == preds;
      i := 0;
      while i < |predToRemove|
        invariant 0 <= i <= |predToRemove| && loop.header in graph.pre && term == f.term[p.outside := Br(preheader)]
        invariant graph.entry == f.graph.entry && graph.blocks == f.graph.blocks + [preheader]
        invariant graph.succ == f.graph.succ[preheader := []][p.outside := [preheader]]
        invariant graph.pre == if i == 0 then f.graph.pre[preheader := [p.outside]]
                               else f.graph.pre[preheader := [p.outside]][p.header := Remaining(f.graph.pre[p.header], {p.outside})]
      {
        graph := graph.(pre := graph.pre[loop.header := Remaining(graph.pre[loop.header], {predToRemove[i]})]);
        i := i + 1;
      }
    }

    /** The instruction is searched for in the block, and taken out if it is there. */
    method RemoveInstr(b: Block, instr: Instr)
      requires b in body && instr.Op? && OnceIn(body[b], instr)
      modifies this`body
      ensures body == old(body)[b := Without({instr.id}, old(body)[b])]
    {
      var instrs := body[b];
      var i := 0;
      while i < |instrs| && instrs[i] != instr
        invariant 0 <= i <= |instrs| && forall k | 0 <= k < i :: instrs[k] != instr
      {
        i := i + 1;
      }
      RemovedOne(instrs, instr, i);
      if i < |instrs| {
        body := body[b := instrs[..i] + instrs[i + 1..]];
      }
    }

    /** From whichever block of the loop it is in to the end of the preheader. */
    method MoveInstr(blocks: seq<Block>, instr: Instr, preheader: Block)
      requires instr.Op? && preheader in body && preheader !in blocks && forall b | b in blocks :: b in body && OnceIn(body[b], instr)
      modifies this`body
      ensures preheader in body && body[preheader] == old(body)[preheader] + [instr] && body.Keys == old(body).Keys
      ensures forall b | b in old(body) && b != preheader ::
                b in body && body[b] == if b in blocks then Without({instr.id}, old(body)[b]) else old(body)[b]
    {
      hide OnceIn, Without;
      var k := 0;
      while k < |blocks|
        invariant 0 <= k <= |blocks| && body.Keys == old(body).Keys
        invariant forall b | b in old(body) :: b in body && body[b] == if b in blocks[..k] then Without({instr.id}, old(body)[b]) else old(body)[b]
      {
        var b := blocks[k];
        assert blocks[..k + 1] == blocks[..k] + [b] && b in blocks;
        OnceAfter(old(body)[b], instr, {instr.id});
        WithoutBoth({instr.id}, {instr.id}, old(body)[b]);
        assert {instr.id} + {instr.id} == {instr.id};
        RemoveInstr(b, instr);
        k := k + 1;
      }
      assert blocks[..k] == blocks;
      body := body[preheader := body[preheader] + [instr]];
    }

    method MoveInstrs(blocks: seq<Block>, inv: seq<Instr>, preheader: Block)
      requires preheader in body && body[preheader] == [] && preheader !in blocks
      requires (forall i | i in inv :: i.Op?) && (forall b | b in blocks :: b in body) && forall b, i | b in blocks && i in inv :: OnceIn(body[b], i)
      modifies this`body
      ensures preheader in body && body[preheader] == inv
      ensures forall b | b in old(body) && b != preheader :: b in body && body[b] == if b in blocks then Without(IdsOf(inv), old(body)[b]) else old(body)[b]
    {
      hide OnceIn, Without, IdsOf;
      IdsOfNone();
      var k := 0;
      forall b | b in body ensures Without({}, body[b]) == body[b] {
        WithoutNone(body[b]);
      }
      while k < |inv|
        invariant 0 <= k <= |inv| && preheader in body && body[preheader] == inv[..k] && body.Keys == old(body).Keys
        invariant forall b | b in old(body) && b != preheader :: b in body && body[b] == if b in blocks then Without(IdsOf(inv[..k]), old(body)[b]) else old(body)[b]
      {
        var instr := inv[k];
        assert inv[..k + 1] == inv[..k] + [instr] && instr in inv;
        IdsOfMore(inv[..k], instr);
        forall b | b in blocks
          ensures OnceIn(body[b], instr) && Without({instr.id}, Without(IdsOf(inv[..k]), old(body)[b])) == Without(IdsOf(inv[..k]) + {instr.id}, old(body)[b])
        {
          OnceAfter(old(body)[b], instr, IdsOf(inv[..k]));
          WithoutBoth(IdsOf(inv[..k]), {instr.id}, old(body)[b]);
        }
        MoveInstr(blocks, instr, preheader);
        k := k + 1;
      }
      assert inv[..k] == inv;
    }

    /** A new block in front of the loop: phis relabelled, the branch redirected, the operations moved, and a branch to the header. */
    method InsertPreheader(loop: Loop, inv: seq<Instr>, preheader: Block, ghost f: Func, ghost p: Plan)
      requires Code() == f && p.header == loop.header && p.preheader == preheader && p.moved == inv && Rewritable(f, p, loop.blocks)
      modifies this`graph, this`phis, this`body, this`term
      ensures Inserted(f, Code(), p, loop.blocks)
    {
      hide OnceIn, Without, Relabel, IdsOf, PhisInserted, BodiesInserted, PredsKnown;
      RewriteParts(f, p, loop.blocks);
      graph, phis, body := WithBlock(graph, preheader), phis[preheader := []], body[preheader := []];
      RelabelPhis(loop, preheader);
      PhisDone(p, loop.blocks, f.phis, phis);
      RedirectPreds(loop, preheader, f, p);
      MoveInstrs(loop.blocks, inv, preheader);
      BodiesDone(p, loop.blocks, f.body, body);
      term := term[preheader := Br(loop.header)];
      BranchAdded(f.graph, p, graph);
      graph := graph.(succ := graph.succ[preheader := graph.succ[preheader] + [loop.header]], pre := graph.pre[loop.header := graph.pre[loop.header] + [preheader]]);
    }

    method MarkPreheader(loop: Loop, preheader: Block, ghost of: Loops, ghost n: Nest, ghost listed: map<Block, seq<Block>>, ghost done: set<Block>)
      requires Objects(of, n, listed, done) && loop.header in of && of[loop.header] == loop
      modifies loop`preheader
      ensures Objects(of, n, listed, done + {loop.header})
    {
      if loop.preheader == None {
        loop.SetPreheader(preheader);
      }
      forall h | h in of ensures LoopIs(of, n, listed, done + {loop.header}, of[h]) {
        assert old(LoopIs(of, n, listed, done, of[h]));
        assert h != loop.header ==> of[h] != loop;
      }
    }

    /** The loop around lists the preheader. */
    method TellParent(loop: Loop, preheader: Block, ghost of: Loops, ghost n: Nest, ghost listed: map<Block, seq<Block>>, ghost done: set<Block>)
      requires Objects(of, n, listed, done) && loop.header in of && of[loop.header] == loop && loop.header in n.rec
      modifies of.Values
      ensures Objects(of, n, WithNew(listed, n.rec[loop.header].parent, preheader), done)
    {
      ObjectFacts(of, n, listed, done, loop);
      ghost var listed' := WithNew(listed, n.rec[loop.header].parent, preheader);
      ghost var m := loop.parent;
      if loop.parent != null {
        ObjectFacts(of, n, listed, done, loop.parent);
        loop.parent.AddBlock(preheader);
      }
      forall h | h in of ensures of[h].header == h && LoopIs(of, n, listed', done, of[h]) {
        assert old(LoopIs(of, n, listed, done, of[h]));
        assert m != null && h != m.header ==> of[h] != m;
      }
    }

    /** One loop, when the loops inside are done. */
    method RunOnLoop(loop: Loop, ghost of: Loops, ghost g0: Graph, ghost n: Nest, ghost listed: map<Block, seq<Block>>, ghost done: set<Block>)
      returns (ghost listed': map<Block, seq<Block>>)
      requires Objects(of, n, listed, done) && Shaped(Code(), impure, nextBlock, g0, n, listed, done) && loop.header in of && of[loop.header] == loop
      requires loop.header !in done && InnerDone(g0, n, loop.header, done)
      modifies this`graph, this`phis, this`body, this`term, this`nextBlock, of.Values
      ensures Objects(of, n, listed', done + {loop.header}) && Shaped(Code(), impure, nextBlock, g0, n, listed', done + {loop.header})
      ensures Rewritten(old(Code()), Code(), impure, loop.header) && KeepsMeaning(impure, old(Code()), Code())
    {
      hide Rewritten, Objects, Shaped, KeepsMeaning, Inside, InvariantsSound, InvariantsComplete, CollectedOk, Inserted, Rewritable, GivesValue, HasEffect, Variables,
        WithNew;
      ghost var f, h := Code(), loop.header;
      ObjectFacts(of, n, listed, done, loop);
      var instrs, phiIds := CollectLoopInfo(loop, of, g0, n, listed, done);
      var inv := FindInvariants(instrs, phiIds);
      var preheader := nextBlock;
      nextBlock := nextBlock + 1;
      MarkPreheader(loop, preheader, of, n, listed, done);
      if |inv| == 0 {
        listed' := listed;
        ShapedSame(f, h, impure, preheader, g0, n, listed, done, instrs, phiIds);
        ShapedMeaning(f, impure, preheader, g0, n, listed, done);
        NothingMoved(f, impure, h, instrs, phiIds);
        return;
      }
      ghost var p := PlanFor(f, h, impure, preheader, g0, n, listed, done, instrs, phiIds, inv);
      ObjectFacts(of, n, listed, done + {h}, loop);
      InsertPreheader(loop, inv, preheader, f, p);
      ShapedMoved(f, Code(), p, impure, preheader, g0, n, listed, done, instrs, phiIds);
      listed' := WithNew(listed, n.rec[h].parent, preheader);
      TellParent(loop, preheader, of, n, listed, done + {h});
    }

    /** A loop after its sub-loops, unless it has been visited. */
    method TraverseLoop(loop: Loop, ghost of: Loops, ghost g0: Graph, ghost n: Nest, ghost listed: map<Block, seq<Block>>, ghost done: set<Block>, ghost open: set<Block>)
      returns (ghost listed': map<Block, seq<Block>>, ghost done': set<Block>)
      requires Objects(of, n, listed, done) && Shaped(Code(), impure, nextBlock, g0, n, listed, done) && loop.header in of && of[loop.header] == loop
      requires Flags(of, isLoopDone, done, open) && forall a | a in open :: a !in Inside(g0, n, loop.header)
      modifies this, of.Values
      ensures Objects(of, n, listed', done') && Shaped(Code(), impure, nextBlock, g0, n, listed', done')
      ensures forall c :: c in done' <==> c in done || c in Inside(g0, n, loop.header)
      ensures Flags(of, isLoopDone, done', open) && old(isLoopDone) <= isLoopDone && KeepsMeaning(impure, old(Code()), Code())
      decreases Inside(g0, n, loop.header)
    {
      hide Objects, Shaped, KeepsMeaning, Inside, Flags, InsideSubs, Nested, LoopGraph, Fit, SsaForm, SameNest, ListsOk, Settled;
      ghost var h := loop.header;
      ObjectFacts(of, n, listed, done, loop);
      ShapedParts(Code(), impure, nextBlock, g0, n, listed, done);
      HeaderAmong(g0, n, h);
      listed', done' := listed, done;
      MeaningSame(impure, Code());
      if loop in isLoopDone {
        DoneAlready(of, isLoopDone, done, open, h);
        return;
      }
      ObjectHeaders(of, n, listed, done);
      FlagSet(of, isLoopDone, done, open, h);
      isLoopDone := isLoopDone + {loop};
      var j := 0;
      ghost var subs := n.rec[h].subs;
      NoSubsInside(g0, n);
      while j < |loop.subLoops|
        invariant 0 <= j <= |subs| && |loop.subLoops| == |subs| && Objects(of, n, listed', done') && Shaped(Code(), impure, nextBlock, g0, n, listed', done')
        invariant forall c :: c in done' <==> c in done || InsideSubs(g0, n, subs[..j], c)
        invariant Flags(of, isLoopDone, done', open + {h}) && old(isLoopDone) <= isLoopDone && loop in isLoopDone && KeepsMeaning(impure, old(Code()), Code())
      {
        ObjectFacts(of, n, listed', done', loop);
        var sub := loop.subLoops[j];
        assert subs[j] in subs;
        SubsSmaller(g0, n, h, subs[j]);
        ghost var before := Code();
        listed', done' := TraverseLoop(sub, of, g0, n, listed', done', open + {h});
        MeaningTransitive(impure, old(Code()), before, Code());
        OneMoreInside(g0, n, subs, j);
        ObjectFacts(of, n, listed', done', loop);
        j := j + 1;
      }
      assert subs[..j] == subs;
      SubsCover(g0, n, h);
      DoneButOne(g0, n, h, done');
      ghost var before := Code();
      listed' := RunOnLoop(loop, of, g0, n, listed', done');
      MeaningTransitive(impure, old(Code()), before, Code());
      FlagKept(of, isLoopDone, done', open, h);
      done' := done' + {h};
    }

    method TraverseAll(loops: seq<Loop>, ghost of: Loops, ghost g0: Graph, ghost n: Nest, ghost listed: map<Block, seq<Block>>)
      requires Objects(of, n, listed, {}) && Shaped(Code(), impure, nextBlock, g0, n, listed, {}) && Listed(of, loops) && isLoopDone == {}
      modifies this, of.Values
      ensures Fit(Code()) && KeepsMeaning(impure, old(Code()), Code())
      ensures forall h :: IsHeader(graph, h) <==> IsHeader(g0, h)
      ensures forall h | IsHeader(graph, h) :: Settled(Code(), impure, h)
    {
      hide Objects, Shaped, KeepsMeaning, Inside, Flags, Fit, Nested, Settled, IsHeader, WellFormed, Listed, LoopGraph, SsaForm, SameNest, ListsOk;
      FlagsNone(of);
      ShapedMeaning(Code(), impure, nextBlock, g0, n, listed, {});
      ObjectHeaders(of, n, listed, {});
      ghost var listed', done: set<Block> := listed, {};
      var i := 0;
      while i < |loops|
        invariant 0 <= i <= |loops| && Objects(of, n, listed', done) && Shaped(Code(), impure, nextBlock, g0, n, listed', done) && KeepsMeaning(impure, old(Code()), Code())
        invariant Flags(of, isLoopDone, done, {}) && forall k | 0 <= k < i :: loops[k].header in done
      {
        ghost var before := Code();
        InList(of, loops, i);
        ShapedParts(Code(), impure, nextBlock, g0, n, listed', done);
        ListedHeader(of, n, g0, loops, i);
        listed', done := TraverseLoop(loops[i], of, g0, n, listed', done, {});
        MeaningTransitive(impure, old(Code()), before, Code());
        i := i + 1;
      }
      ShapedParts(Code(), impure, nextBlock, g0, n, listed', done);
      AllSettled(Code(), impure, g0, n, of, loops, done);
    }

    /** All loops of the function, inner ones before outer ones. */
    method Run() returns (outcome: Outcome)
      requires Fit(Code()) && forall b | b in graph.blocks :: b < nextBlock
      modifies this
      ensures outcome.Finished? && Fit(Code()) && KeepsMeaning(impure, old(Code()), Code())
      ensures forall h :: IsHeader(graph, h) <==> IsHeader(old(graph), h)
      ensures forall h | IsHeader(graph, h) :: Settled(Code(), impure, h) && NothingLeft(Code(), impure, h)
      ensures EffectsStay(impure, old(Code()), Code())
    {
      hide EffectsStay, NothingLeft, Objects, Shaped, KeepsMeaning, NestOk, Fit, Settled, IsHeader, ReachableClosedUnderPred, WellFormed, Listed, Mapped, Recorded;
      FitAnalysable(Code(), impure);
      var loopDetection := new LoopDetection();
      outcome := loopDetection.RunOnFunc(graph);
      isLoopDone := {};
      ObjectsStart(loopDetection);
      ShapedStart(Code(), impure, nextBlock, loopDetection.nest);
      TraverseAll(loopDetection.loops, loopDetection.of, graph, loopDetection.nest, ListsOf(loopDetection.nest.rec));
      forall h | IsHeader(graph, h) ensures NothingLeft(Code(), impure, h) {
        SettledNothingLeft(Code(), impure, h);
      }
      MeaningEffects(impure, old(Code()), Code());
    }

    // ----- which operations are invariant -----

    method LoopVariables(instrs: set<Instr>, phiIds: set<Id>, inv: seq<Instr>) returns (variables: set<Id>)
      ensures forall id :: id in variables <==> id in Variables(instrs, phiIds, inv)
    {
      variables := phiIds;
      var list := SetToSeq(instrs);
      var k := 0;
      while k < |list|
        invariant 0 <= k <= |list|
        invariant forall id :: id in variables <==> id in phiIds || exists i :: i in list[..k] && i !in inv && Defines(i) == Some(id)
      {
        var instr := list[k];
        assert list[..k + 1] == list[..k] + [instr];
        if instr !in inv && !instr.Store? {
          variables := variables + {Defines(instr).value};
        }
        k := k + 1;
      }
      assert list[..k] == list;
    }

    method IsInvariant(instr: Instr, variables: set<Id>) returns (invariantly: bool)
      ensures invariantly <==> forall v | v in Uses(instr) && v.Res? :: v.id !in variables
    {
      invariantly := true;
      var operands := Uses(instr);
      var i := 0;
      while i < |operands|
        invariant 0 <= i <= |operands| && forall v | v in operands[..i] && v.Res? :: v.id !in variables
      {
        assert operands[i] in Uses(instr);
        if operands[i].Res? && operands[i].id in variables {
            invariantly := false;
          return;
        }
        assert operands[..i + 1] == operands[..i] + [operands[i]];
        i := i + 1;
      }
      assert operands[..i] == operands;
    }

    /** Rounds over all instructions of the loop, until a round finds nothing. */
    method FindInvariants(instrs: set<Instr>, phiIds: set<Id>) returns (inv: seq<Instr>)
      ensures InvariantsSound(impure, instrs, phiIds, inv) && InvariantsComplete(impure, instrs, phiIds, inv)
      ensures forall i | i in instrs && GivesValue(impure, i) && i !in inv :: exists v :: v in Uses(i) && v.Res? && v.id in Variables(instrs, phiIds, inv)
      ensures forall i | i in inv :: !HasEffect(impure, i)
    {
      hide InvariantsSound, InvariantsComplete, GivesValue, HasEffect, Variables;
      inv := [];
      SoundNone(impure, instrs, phiIds);
      var changed := true;
      while changed
        invariant InvariantsSound(impure, instrs, phiIds, inv) && (!changed ==> InvariantsComplete(impure, instrs, phiIds, inv))
        decreases Left(instrs, inv), changed
      {
        SoundBound(impure, instrs, phiIds, inv);
        inv, changed := Round(instrs, phiIds, inv);
        SoundBound(impure, instrs, phiIds, inv);
      }
      FoundByKind(impure, instrs, phiIds, inv);
    }

    method Round(instrs: set<Instr>, phiIds: set<Id>, found: seq<Instr>) returns (inv: seq<Instr>, changed: bool)
      requires InvariantsSound(impure, instrs, phiIds, found)
      ensures InvariantsSound(impure, instrs, phiIds, inv) && found <= inv && (changed <==> |found| < |inv|)
      ensures !changed ==> InvariantsComplete(impure, instrs, phiIds, inv)
    {
      hide InvariantsSound, Variables;
      inv, changed := found, false;
      var variables := LoopVariables(instrs, phiIds, found);
      var list := SetToSeq(instrs);
      var i := 0;
      while i < |list|
        invariant 0 <= i <= |list| && InvariantsSound(impure, instrs, phiIds, inv) && found <= inv && (changed <==> |found| < |inv|)
        invariant !changed ==> forall x | x in list[..i] && Movable(impure, x) && x !in found :: !Invariant(instrs, phiIds, found, x)
      {
        var instr := list[i];
        assert list[..i + 1] == list[..i] + [instr];
        if instr !in inv && Movable(impure, instr) {
          var invariantly := IsInvariant(instr, variables);
          assert invariantly <==> Invariant(instrs, phiIds, found, instr);
          if invariantly {
            MoreInvariant(instrs, phiIds, found, inv, instr);
            SoundMore(impure, instrs, phiIds, inv, instr);
            inv, changed := inv + [instr], true;
          }
        }
        i := i + 1;
      }
      assert list[..i] == list;
      assert !changed ==> inv == found;
    }
  }

  /** The invariants by the kinds of operations. */
  lemma FoundByKind(impure: bool, instrs: set<Instr>, phiIds: set<Id>, inv: seq<Instr>)
    requires InvariantsSound(impure, instrs, phiIds, inv) && InvariantsComplete(impure, instrs, phiIds, inv)
    ensures forall i | i in instrs && GivesValue(impure, i) && i !in inv :: exists v :: v in Uses(i) && v.Res? && v.id in Variables(instrs, phiIds, inv)
    ensures forall i | i in inv :: !HasEffect(impure, i)
  {
    hide Movable, GivesValue, HasEffect, Variables, NoDuplicates;
    forall i | i in instrs && GivesValue(impure, i) && i !in inv ensures exists v :: v in Uses(i) && v.Res? && v.id in Variables(instrs, phiIds, inv) {
      MovableExactly(impure, i);
    }
    forall i | i in inv ensures !HasEffect(impure, i) {
      var k :| 0 <= k < |inv| && inv[k] == i;
      MovableExactly(impure, i);
    }
  }

  lemma ShapedMeaning(f: Func, impure: bool, next: Block, g0: Graph, n: Nest, listed: map<Block, seq<Block>>, done: set<Block>)
    requires Shaped(f, impure, next, g0, n, listed, done)
    ensures KeepsMeaning(impure, f, f)
  {
    hide Shaped, KeepsMeaning, Fit, WellFormedFunc, Nested, LoopGraph, SsaForm, ListsOk, Settled, SameNest;
    ShapedParts(f, impure, next, g0, n, listed, done);
    MeaningSame(impure, f);
  }

  /** What the rewriting of a loop relies on. */
  ghost predicate Rewritable(f: Func, p: Plan, blocks: seq<Block>) {
    && PredsKnown(f, p, blocks) && p.header in f.phis && p.preheader !in blocks && p.preheader !in f.graph.blocks
    && (forall i | i in p.moved :: i.Op?) && (forall b | b in blocks :: b in f.body) && forall b, i | b in blocks && i in p.moved :: OnceIn(f.body[b], i)
  }

  lemma RewriteParts(f: Func, p: Plan, blocks: seq<Block>)
    requires Rewritable(f, p, blocks)
    ensures p.header in f.graph.pre && p.header != p.preheader && p.outside != p.preheader
  {
    hide OnceIn;
  }

  lemma PhisDone(p: Plan, blocks: seq<Block>, phis: map<Block, seq<Phi>>, phis': map<Block, seq<Phi>>)
    requires p.header != p.preheader && p.header in phis && p.header in phis' && |phis'[p.header]| == |phis[p.header]|
    requires phis' == phis[p.preheader := []][p.header := phis'[p.header]]
    requires forall k | 0 <= k < |phis[p.header]| :: phis'[p.header][k] == Phi(phis[p.header][k].id, Relabel(blocks, p.preheader, phis[p.header][k].pairs))
    ensures PhisInserted(p, blocks, phis, phis')
  {
    hide Relabel;
  }

  lemma BodiesDone(p: Plan, blocks: seq<Block>, body: map<Block, seq<Instr>>, body': map<Block, seq<Instr>>)
    requires p.preheader in body' && body'[p.preheader] == p.moved
    requires forall b | b in body[p.preheader := []] && b != p.preheader ::
               b in body' && body'[b] == if b in blocks then Without(IdsOf(p.moved), body[p.preheader := []][b]) else body[p.preheader := []][b]
    ensures BodiesInserted(p, blocks, body, body')
  {
    hide Without, IdsOf;
    forall b | b in body && b != p.preheader ensures b in body' && body'[b] == if b in blocks then Without(IdsOf(p.moved), body[b]) else body[b] {
      assert b in body[p.preheader := []];
    }
  }

  lemma BranchAdded(g: Graph, p: Plan, g1: Graph)
    requires p.header in g.pre && p.header != p.preheader && p.outside != p.preheader && p.header in g1.pre && p.preheader in g1.succ
    requires g1.entry == g.entry && g1.blocks == g.blocks + [p.preheader]
    requires g1.pre == g.pre[p.preheader := [p.outside]][p.header := Remaining(g.pre[p.header], {p.outside})] && g1.succ == g.succ[p.preheader := []][p.outside := [p.preheader]]
    ensures g1.(succ := g1.succ[p.preheader := g1.succ[p.preheader] + [p.header]], pre := g1.pre[p.header := g1.pre[p.header] + [p.preheader]])
            == NewGraph(g, p.outside, p.header, p.preheader)
  {
    assert g1.succ[p.preheader] == [] && [] + [p.header] == [p.header];
    assert g1.succ[p.preheader := [p.header]] == g.succ[p.outside := [p.preheader]][p.preheader := [p.header]];
  }

  /** The plan for a loop, and that it can be carried out. */
  lemma PlanFor(f: Func, h: Block, impure: bool, next: Block, g0: Graph, n: Nest, listed: map<Block, seq<Block>>, done: set<Block>,
                instrs: set<Instr>, phiIds: set<Id>, inv: seq<Instr>) returns (p: Plan)
    requires Shaped(f, impure, next, g0, n, listed, done) && h in n.rec && h in listed && InnerDone(g0, n, h, done)
    requires InvariantsSound(impure, instrs, phiIds, inv) && CollectedOk(f, h, instrs, phiIds)
    ensures p.header == h && p.preheader == next && p.moved == inv && CleanEntry(f, h, p.outside) && Rewritable(f, p, listed[h])
  {
    hide Shaped, InLoop, Nested, LoopGraph, SsaForm, ListsOk, Settled, WellFormed, Fit, InvariantsSound, CollectedOk, CleanEntry, IsHeader, PredsKnown, Inside, SameNest, OnceIn;
    ShapedParts(f, impure, next, g0, n, listed, done);
    var o := EntryOf(f, n, h);
    p := Plan(h, o, next, inv);
    NestedHeader(f.graph, n, h);
    KnownPreds(f, p, n.rec.Keys, listed);
    ListedKnown(f, n, listed, h);
    RegistersOf(f, impure);
    InvariantsOps(f, h, impure, instrs, phiIds, inv);
    forall b, i | b in listed[h] && i in inv ensures OnceIn(f.body[b], i) {
      OnceInLoop(f, h, b, i);
    }
  }

  lemma RegistersOf(f: Func, impure: bool)
    requires Fit(f)
    ensures RegisterLoops(f) && IdsApart(f)
  {
    hide BodyReady, TermReady, EdgeReady, IdsApart, CleanLoops, LoopGraph;
  }

  lemma OnceInLoop(f: Func, h: Block, b: Block, instr: Instr)
    requires IdsApart(f) && instr.Op? && OfLoop(f, h, instr) && b in f.graph.blocks && b in f.body
    ensures OnceIn(f.body[b], instr)
  {
    hide InLoop;
    var c, j := PlaceIn(f, h, instr);
    assert DefinedAt(f, instr.id, c, j);
    forall i | 0 <= i < |f.body[b]| && Leaves({instr.id}, f.body[b][i]) ensures f.body[b][i] == instr && b == c && i == j {
      assert DefinedAt(f, instr.id, b, i);
    }
  }

  // ----- visiting the nest -----

  ghost predicate Flags(of: Loops, flagged: set<Loop>, done: set<Block>, open: set<Block>) {
    && (forall h | h in of && of[h] in flagged :: h in done || h in open)
    && forall c | c in done :: c in of && of[c] in flagged
  }

  lemma FlagsNone(of: Loops)
    ensures Flags(of, {}, {}, {})
  {
  }

  lemma DoneAlready(of: Loops, flagged: set<Loop>, done: set<Block>, open: set<Block>, h: Block)
    requires Flags(of, flagged, done, open) && h in of && of[h] in flagged && h !in open
    ensures h in done
  {
  }

  lemma FlagSet(of: Loops, flagged: set<Loop>, done: set<Block>, open: set<Block>, h: Block)
    requires Flags(of, flagged, done, open) && h in of && of[h] !in flagged && forall k | k in of :: of[k].header == k
    ensures h !in done && Flags(of, flagged + {of[h]}, done, open + {h})
  {
  }

  lemma FlagKept(of: Loops, flagged: set<Loop>, done: set<Block>, open: set<Block>, h: Block)
    requires Flags(of, flagged, done, open + {h}) && h in of && of[h] in flagged
    ensures Flags(of, flagged, done + {h}, open)
  {
  }

  ghost predicate InsideSubs(g: Graph, n: Nest, subs: seq<Block>, c: Block) {
    exists s :: s in subs && c in Inside(g, n, s)
  }

  lemma NoSubsInside(g: Graph, n: Nest)
    ensures forall c :: !InsideSubs(g, n, [], c)
  {
  }

  lemma OneMoreInside(g: Graph, n: Nest, subs: seq<Block>, j: nat)
    requires j < |subs|
    ensures forall c :: InsideSubs(g, n, subs[..j + 1], c) <==> InsideSubs(g, n, subs[..j], c) || c in Inside(g, n, subs[j])
  {
    hide Inside;
    assert subs[..j + 1] == subs[..j] + [subs[j]];
    assert forall s :: s in subs[..j + 1] <==> s in subs[..j] || s == subs[j];
  }

  lemma DoneButOne(g: Graph, n: Nest, h: Block, done: set<Block>)
    requires LoopGraph(g) && Nested(g, n) && h in n.rec && forall c | InsideSubs(g, n, n.rec[h].subs, c) :: c in done
    ensures InnerDone(g, n, h, done)
  {
    hide LoopGraph, Nested, Inside, InsideSubs;
    SubsCover(g, n, h);
  }

  lemma HeaderAmong(g: Graph, n: Nest, h: Block)
    requires LoopGraph(g) && Nested(g, n) && h in n.rec
    ensures h in Inside(g, n, h)
  {
    hide InLoop, LoopGraph;
    HeaderBlock(g, h);
  }

  /** What is inside a loop is its header and what is inside its sub-loops. */
  lemma SubsCover(g: Graph, n: Nest, h: Block)
    requires LoopGraph(g) && Nested(g, n) && h in n.rec
    ensures forall c :: c in Inside(g, n, h) <==> c == h || InsideSubs(g, n, n.rec[h].subs, c)
    ensures !InsideSubs(g, n, n.rec[h].subs, h)
  {
    hide InLoop, LoopGraph, Nested;
    HeaderAmong(g, n, h);
    forall c | c in Inside(g, n, h) && c != h ensures InsideSubs(g, n, n.rec[h].subs, c) {
      var s := SubLoopOf(g, n, h, c);
    }
    forall s | s in n.rec[h].subs ensures Inside(g, n, s) <= Inside(g, n, h) && h !in Inside(g, n, s) {
      SubsSmaller(g, n, h, s);
    }
  }

  // ----- the start and the end -----

  lemma FitAnalysable(f: Func, impure: bool)
    requires Fit(f)
    ensures WellFormed(f.graph) && ReachableClosedUnderPred(f.graph)
  {
    hide SsaForm, RegisterLoops, CleanLoops, WellFormed, ReachableClosedUnderPred;
  }

  lemma ObjectsStart(d: LoopDetection)
    requires d.Valid()
    ensures Objects(d.of, d.nest, ListsOf(d.nest.rec), {})
  {
    hide Mapped;
    forall h | h in d.of ensures d.of[h].header == h && LoopIs(d.of, d.nest, ListsOf(d.nest.rec), {}, d.of[h]) {
      assert d.of[h].Matches(d.nest.rec[h]) && KinKnown(d.of, d.of[h]);
    }
  }

  lemma ShapedStart(f: Func, impure: bool, next: Block, n: Nest)
    requires Fit(f) && (forall b | b in f.graph.blocks :: b < next)
    requires NestOk(f.graph, n.rec.Keys, n) && forall h :: h in n.rec <==> IsHeader(f.graph, h)
    ensures Shaped(f, impure, next, f.graph, n, ListsOf(n.rec), {})
  {
    hide InLoop, IsHeader, SsaForm, RegisterLoops, CleanLoops, LoopGraph, WellFormed;
    forall h | h in n.rec ensures ParentOk(f.graph, n.rec.Keys, h, n.rec[h]) && SubsOk(n, h, n.rec[h]) && forall b :: b in n.rec[h].blocks <==> InLoop(f.graph, h, b) {
      assert RecOk(f.graph, n.rec.Keys, n, h);
    }
  }

  lemma InList(of: Loops, loops: seq<Loop>, i: nat)
    requires Listed(of, loops) && i < |loops|
    ensures loops[i].header in of && of[loops[i].header] == loops[i]
  {
  }

  lemma ListedHeader(of: Loops, n: Nest, g: Graph, loops: seq<Loop>, i: nat)
    requires Listed(of, loops) && i < |loops| && LoopGraph(g) && Nested(g, n) && forall h :: h in of <==> h in n.rec
    ensures loops[i].header in Inside(g, n, loops[i].header)
  {
    hide LoopGraph, Nested, Inside;
    HeaderAmong(g, n, loops[i].header);
  }

  lemma AllSettled(f: Func, impure: bool, g0: Graph, n: Nest, of: Loops, loops: seq<Loop>, done: set<Block>)
    requires Listed(of, loops) && (forall h :: h in of <==> h in n.rec) && (forall k | 0 <= k < |loops| :: loops[k].header in done)
    requires Nested(g0, n) && Nested(f.graph, n) && forall c | c in done :: Settled(f, impure, c)
    ensures forall h :: IsHeader(f.graph, h) <==> IsHeader(g0, h)
    ensures forall h | IsHeader(f.graph, h) :: Settled(f, impure, h)
  {
    hide Settled, IsHeader;
    forall h | IsHeader(f.graph, h) ensures h in done {
      assert of[h] in loops;
    }
  }

  lemma ListedKnown(f: Func, n: Nest, listed: map<Block, seq<Block>>, h: Block)
    requires WellFormedFunc(f) && LoopGraph(f.graph) && ListsOk(f.graph, n.rec.Keys, listed) && h in n.rec && h in listed
    ensures forall b | b in listed[h] :: b in f.graph.blocks && b in f.body && b in f.phis && InLoop(f.graph, h, b)
  {
    hide InLoop, LoopGraph, ListsOk, WellFormed;
    ListsParts(f.graph, n.rec.Keys, listed, h);
    forall b | b in listed[h] ensures b in f.graph.blocks {
      InLoopBlock(f.graph, h, b);
    }
  }

  lemma OneMoreBlock(body: map<Block, seq<Instr>>, phis: map<Block, seq<Phi>>, blocks: seq<Block>, k: nat)
    requires k < |blocks| && blocks[k] in body && blocks[k] in phis
    ensures forall i :: InBlocks(body, blocks[..k + 1], i) <==> InBlocks(body, blocks[..k], i) || i in body[blocks[k]]
    ensures forall id :: PhiInBlocks(phis, blocks[..k + 1], id) <==>
              PhiInBlocks(phis, blocks[..k], id) || exists i :: 0 <= i < |phis[blocks[k]]| && phis[blocks[k]][i].id == id
  {
    assert blocks[..k + 1] == blocks[..k] + [blocks[k]];
    assert forall c :: c in blocks[..k + 1] <==> c in blocks[..k] || c == blocks[k];
    forall id | PhiInBlocks(phis, blocks[..k], id) ensures PhiInBlocks(phis, blocks[..k + 1], id) {
      var c, i :| c in blocks[..k] && c in phis && 0 <= i < |phis[c]| && phis[c][i].id == id;
      assert c in blocks[..k + 1];
    }
    forall i | 0 <= i < |phis[blocks[k]]| ensures PhiInBlocks(phis, blocks[..k + 1], phis[blocks[k]][i].id) {
      assert blocks[k] in blocks[..k + 1];
    }
  }

  lemma NoSubs(f: Func)
    ensures forall i :: !InSubs(f, [], i)
    ensures forall id :: !PhiInSubs(f, [], id)
  {
  }

  lemma CollectedParts(f: Func, h: Block, instrs: set<Instr>, phiIds: set<Id>)
    requires CollectedOk(f, h, instrs, phiIds)
    ensures (forall i :: i in instrs <==> OfLoop(f, h, i)) && forall id :: id in phiIds <==> PhiOfLoop(f, h, id)
  {
    hide OfLoop, PhiOfLoop;
  }

  lemma CollectedIntro(f: Func, h: Block, instrs: set<Instr>, phiIds: set<Id>)
    requires (forall i :: i in instrs <==> OfLoop(f, h, i)) && forall id :: id in phiIds <==> PhiOfLoop(f, h, id)
    ensures CollectedOk(f, h, instrs, phiIds)
  {
    hide OfLoop, PhiOfLoop;
  }

  lemma OneMoreSub(f: Func, subs: seq<Block>, j: nat)
    requires j < |subs|
    ensures forall i :: InSubs(f, subs[..j + 1], i) <==> InSubs(f, subs[..j], i) || OfLoop(f, subs[j], i)
    ensures forall id :: PhiInSubs(f, subs[..j + 1], id) <==> PhiInSubs(f, subs[..j], id) || PhiOfLoop(f, subs[j], id)
  {
    hide OfLoop, PhiOfLoop;
    assert subs[..j + 1] == subs[..j] + [subs[j]];
    assert forall s :: s in subs[..j + 1] <==> s in subs[..j] || s == subs[j];
  }

  // ----- the entry -----

  function WithBlock(g: Graph, b: Block): Graph {
    Graph(g.entry, g.blocks + [b], g.pre[b := []], g.succ[b := []])
  }

  /** The predecessors of the header: the one from outside, and latches, which branch back first. */
  ghost predicate PredsKnown(f: Func, p: Plan, blocks: seq<Block>) {
    && p.header in f.graph.pre && p.header != p.preheader && p.outside != p.preheader && p.outside in f.graph.pre[p.header] && Once(f.graph.pre[p.header], p.outside)
    && p.outside in f.term && f.term[p.outside] == Br(p.header) && p.outside in f.graph.succ && f.graph.succ[p.outside] == [p.header] && p.outside !in blocks
    && (forall u | u in f.graph.pre[p.header] && u != p.outside ::
          u != p.preheader && u in blocks && u in f.graph.succ && |f.graph.succ[u]| > 0 && f.graph.succ[u][0] == p.header)
  }

  ghost predicate Redirecting(f: Func, p: Plan, redirected: bool, g: Graph, term: map<Block, Term>, removed: seq<Block>)
    requires p.header in f.graph.pre
  {
    && g.entry == f.graph.entry && g.blocks == f.graph.blocks + [p.preheader]
    && g.pre == f.graph.pre[p.preheader := if redirected then [p.outside] else []]
    && g.succ == (if redirected then f.graph.succ[p.preheader := []][p.outside := [p.preheader]] else f.graph.succ[p.preheader := []])
    && term == (if redirected then f.term[p.outside := Br(p.preheader)] else f.term)
    && removed == if redirected then [p.outside] else []
  }

  lemma RedirectStep(f: Func, p: Plan, blocks: seq<Block>, i: nat, g: Graph, term: map<Block, Term>)
    requires PredsKnown(f, p, blocks) && i < |f.graph.pre[p.header]| && Redirecting(f, p, false, g, term, [])
    ensures term[p.outside] == Br(p.header) && p.outside in g.succ && p.preheader in g.pre
    ensures Redirecting(f, p, true,
                        g.(succ := g.succ[p.outside := Remaining(g.succ[p.outside], {p.header}) + [p.preheader]],
                           pre := g.pre[p.preheader := g.pre[p.preheader] + [p.outside]]),
                        term[p.outside := Br(p.preheader)], [p.outside])
  {
    assert Remaining([p.header], {p.header}) == [];
    assert [] + [p.preheader] == [p.preheader] && [] + [p.outside] == [p.outside] && g.pre[p.preheader] == [];
    assert g.pre[p.preheader := [p.outside]] == f.graph.pre[p.preheader := [p.outside]];
  }

  lemma PredFacts(f: Func, p: Plan, blocks: seq<Block>, i: nat)
    requires PredsKnown(f, p, blocks) && i < |f.graph.pre[p.header]|
    ensures f.graph.pre[p.header][i] == p.outside ==> p.outside !in f.graph.pre[p.header][..i]
    ensures Remaining([p.header], {p.header}) == []
  {
  }

  lemma KnownPreds(f: Func, p: Plan, ks: set<Block>, listed: map<Block, seq<Block>>)
    requires WellFormedFunc(f) && LoopGraph(f.graph) && IsHeader(f.graph, p.header) && CleanEntry(f, p.header, p.outside) && ListsOk(f.graph, ks, listed)
    requires p.header in ks && p.header in listed && p.preheader !in f.graph.blocks
    ensures PredsKnown(f, p, listed[p.header])
  {
    hide InLoop, ListsOk, PairsFrom, LatchesBranchBack, IsHeader, LoopGraph, Once;
    ListsParts(f.graph, ks, listed, p.header);
    assert f.graph.succ[p.outside] == [p.header] && p.header in f.graph.succ[p.outside];
    forall u | u in f.graph.pre[p.header] && u != p.outside
      ensures u != p.preheader && u in listed[p.header] && u in f.graph.succ && |f.graph.succ[u]| > 0 && f.graph.succ[u][0] == p.header
    {
      assert Edge(f.graph, u, p.header);
      LatchFirst(f.graph, p.header, u);
    }
  }

  lemma LatchFirst(g: Graph, h: Block, u: Block)
    requires LoopGraph(g) && InLoop(g, h, u) && Edge(g, u, h) && LatchesBranchBack(g, h)
    ensures |g.succ[u]| > 0 && g.succ[u][0] == h
  {
    hide InLoop, WellFormed;
    LoopDominated(g, h, u);
    DominatorReachable(g, h, u);
    assert IsLatch(g, h, u);
  }

  // ----- moving -----

  /** The value is defined at most once in the list, by this instruction. */
  ghost predicate OnceIn(instrs: seq<Instr>, instr: Instr)
    requires instr.Op?
  {
    && (forall i | 0 <= i < |instrs| && Leaves({instr.id}, instrs[i]) :: instrs[i] == instr)
    && forall i, j | 0 <= i < |instrs| && 0 <= j < |instrs| && instrs[i] == instr && instrs[j] == instr :: i == j
  }

  lemma OnceAfter(instrs: seq<Instr>, instr: Instr, moved: set<Id>)
    requires instr.Op? && OnceIn(instrs, instr)
    ensures OnceIn(Without(moved, instrs), instr)
  {
    var after := Without(moved, instrs);
    assert instrs[..|instrs|] == instrs;
    forall i | 0 <= i < |after| && Leaves({instr.id}, after[i]) ensures after[i] == instr {
      var x := PlaceOf(moved, instrs, |instrs|, i);
    }
    forall i, j | 0 <= i < |after| && 0 <= j < |after| && after[i] == instr && after[j] == instr ensures i == j {
      var x := PlaceOf(moved, instrs, |instrs|, i);
      var y := PlaceOf(moved, instrs, |instrs|, j);
    }
  }

  lemma {:induction false} WithoutBoth(a: set<Id>, b: set<Id>, instrs: seq<Instr>)
    ensures Without(b, Without(a, instrs)) == Without(a + b, instrs)
    decreases |instrs|
  {
    if instrs != [] {
      var init, last := instrs[..|instrs| - 1], instrs[|instrs| - 1];
      WithoutBoth(a, b, init);
      if Leaves(a, last) {
        assert Without(a, instrs) == Without(a, init);
      } else {
        assert Without(a, instrs) == Without(a, init) + [last];
        assert (Without(a, init) + [last])[..|Without(a, init)|] == Without(a, init);
      }
    }
  }

  lemma WithoutNone(instrs: seq<Instr>)
    ensures Without({}, instrs) == instrs
  {
    WithoutNothing({}, instrs);
  }

  lemma IdsOfNone()
    ensures IdsOf([]) == {}
  {
  }

  lemma IdsOfMore(instrs: seq<Instr>, instr: Instr)
    requires instr.Op?
    ensures IdsOf(instrs + [instr]) == IdsOf(instrs) + {instr.id}
  {
    assert forall i :: i in instrs + [instr] <==> i in instrs || i == instr;
  }

  lemma RemovedOne(instrs: seq<Instr>, instr: Instr, i: nat)
    requires instr.Op? && OnceIn(instrs, instr) && i <= |instrs| && (forall k | 0 <= k < i :: instrs[k] != instr) && (i < |instrs| ==> instrs[i] == instr)
    ensures Without({instr.id}, instrs) == if i < |instrs| then instrs[..i] + instrs[i + 1..] else instrs
  {
    if i == |instrs| {
      WithoutNothing({instr.id}, instrs);
    } else {
      RemovedLast({instr.id}, instrs, i, |instrs|);
      assert instrs[..|instrs|] == instrs;
    }
  }

  lemma {:induction false} RemovedLast(moved: set<Id>, instrs: seq<Instr>, i: nat, n: nat)
    requires i < n <= |instrs| && Leaves(moved, instrs[i]) && forall k | 0 <= k < |instrs| && k != i :: !Leaves(moved, instrs[k])
    ensures Without(moved, instrs[..n]) == instrs[..i] + instrs[i + 1..n]
    decreases n
  {
    PlaceNext(moved, instrs, n - 1);
    if i < n - 1 {
      RemovedLast(moved, instrs, i, n - 1);
    } else {
      WithoutNothing(moved, instrs[..i]);
    }
  }

  ghost function Left(instrs: set<Instr>, inv: seq<Instr>): int {
    |instrs| - |inv|
  }

  lemma SoundBound(impure: bool, instrs: set<Instr>, phiIds: set<Id>, inv: seq<Instr>)
    requires InvariantsSound(impure, instrs, phiIds, inv)
    ensures Left(instrs, inv) >= 0
  {
    hide Movable, Invariant;
    NoDuplicatesBound(inv, instrs);
  }

  lemma SoundMore(impure: bool, instrs: set<Instr>, phiIds: set<Id>, inv: seq<Instr>, instr: Instr)
    requires InvariantsSound(impure, instrs, phiIds, inv) && instr in instrs && instr !in inv && Movable(impure, instr) && Invariant(instrs, phiIds, inv, instr)
    ensures InvariantsSound(impure, instrs, phiIds, inv + [instr])
  {
    hide Movable, Invariant;
    var more := inv + [instr];
    forall k | 0 <= k < |more| ensures more[k] in instrs && Movable(impure, more[k]) && Invariant(instrs, phiIds, more[..k], more[k]) {
      assert more[..k] == inv[..k];
      assert inv[..|inv|] == inv;
    }
  }
}
