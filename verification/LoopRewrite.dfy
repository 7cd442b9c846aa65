/** What the rewriting of one loop gives: the function with a preheader, when the right blocks are listed. */
module LoopRewrite {
  import opened Cfg
  import opened NaturalLoops
  import opened Ir
  import opened Ssa
  import opened Preheaders
  import opened Hoisting
  import opened HoistedForm
  import opened InvariantLoops
  import opened LoopForm

  function NewGraph(g: Graph, o: Block, h: Block, n: Block): Graph
    requires h in g.pre
  {
    Graph(g.entry, g.blocks + [n], g.pre[n := [o]][h := Remaining(g.pre[h], {o}) + [n]], g.succ[o := [n]][n := [h]])
  }

  ghost predicate Splittable(g: Graph, p: Plan) {
    && WellFormed(g) && p.outside in g.blocks && p.header in g.blocks && p.outside != p.header && p.preheader !in g.blocks
    && g.succ[p.outside] == [p.header]
  }

  lemma NewGraphEdges(g: Graph, p: Plan)
    requires Splittable(g, p)
    ensures EdgeSplit(g, NewGraph(g, p.outside, p.header, p.preheader), p.outside, p.header, p.preheader)
  {
    var o, h, n := p.outside, p.header, p.preheader;
    var g' := NewGraph(g, o, h, n);
    assert forall v :: Edge(g, o, v) <==> v == h;
    forall u, v ensures Edge(g', u, v) <==> (u != o && Edge(g, u, v)) || (u == o && v == n) || (u == n && v == h) {
      assert u in g'.blocks <==> u in g.blocks || u == n;
    }
  }

  lemma FormedFacts(g: Graph, u: Block, v: Block)
    requires WellFormed(g)
    ensures u in g.blocks ==> u in g.pre && u in g.succ
    ensures u in g.blocks && v in g.succ[u] ==> v in g.blocks && v in g.pre && u in g.pre[v]
    ensures v in g.blocks && v in g.pre && u in g.pre[v] ==> u in g.blocks && u in g.succ && v in g.succ[u]
  {
  }

  lemma FormedIntro(g: Graph)
    requires g.entry in g.blocks && forall b | b in g.blocks :: b in g.pre && b in g.succ
    requires forall u, v :: (u in g.blocks && v in g.succ[u]) <==> (v in g.blocks && u in g.pre[v])
    ensures WellFormed(g)
  {
  }

  lemma NewGraphFormed(g: Graph, p: Plan)
    requires Splittable(g, p)
    ensures WellFormed(NewGraph(g, p.outside, p.header, p.preheader))
  {
    hide WellFormed;
    var o, h, n := p.outside, p.header, p.preheader;
    FormedFacts(g, g.entry, o);
    FormedFacts(g, h, h);
    var g' := NewGraph(g, o, h, n);
    forall b ensures (b in g'.blocks <==> b in g.blocks || b == n) && (b in g'.blocks ==> b in g'.pre && b in g'.succ) {
      FormedFacts(g, b, b);
    }
    forall u, v ensures (u in g'.blocks && v in g'.succ[u]) <==> (v in g'.blocks && u in g'.pre[v]) {
      FormedFacts(g, u, v);
      FormedFacts(g, v, u);
    }
    EntryIn(g);
    FormedIntro(g');
  }

  lemma EntryIn(g: Graph)
    requires WellFormed(g)
    ensures g.entry in g.blocks
  {
  }

  lemma NewGraphLists(g: Graph, p: Plan)
    requires Splittable(g, p)
    ensures ListsChanged(g, NewGraph(g, p.outside, p.header, p.preheader), p)
  {
    assert p.preheader !in g.pre[p.header];
  }

  function Relabel(blocks: seq<Block>, n: Block, pairs: seq<(Val, Block)>): seq<(Val, Block)> {
    seq(|pairs|, i requires 0 <= i < |pairs| => if pairs[i].1 in blocks then pairs[i] else (pairs[i].0, n))
  }

  ghost predicate PhisInserted(p: Plan, blocks: seq<Block>, phis: map<Block, seq<Phi>>, phis': map<Block, seq<Phi>>) {
    && p.header in phis && p.header in phis' && p.preheader in phis' && phis'[p.preheader] == []
    && (forall b | b in phis && b != p.header && b != p.preheader :: b in phis' && phis'[b] == phis[b])
    && |phis'[p.header]| == |phis[p.header]|
    && forall k | 0 <= k < |phis[p.header]| :: phis'[p.header][k] == Phi(phis[p.header][k].id, Relabel(blocks, p.preheader, phis[p.header][k].pairs))
  }

  ghost predicate BodiesInserted(p: Plan, blocks: seq<Block>, body: map<Block, seq<Instr>>, body': map<Block, seq<Instr>>) {
    && p.preheader in body' && body'[p.preheader] == p.moved
    && forall b | b in body && b != p.preheader :: b in body' && body'[b] == if b in blocks then Without(IdsOf(p.moved), body[b]) else body[b]
  }

  /** The four steps: phis relabelled, the branch redirected, operations moved, and a branch to the header. */
  ghost predicate Inserted(f: Func, f': Func, p: Plan, blocks: seq<Block>) {
    && p.header in f.graph.pre && f'.graph == NewGraph(f.graph, p.outside, p.header, p.preheader)
    && f'.term == f.term[p.outside := Br(p.preheader)][p.preheader := Br(p.header)]
    && PhisInserted(p, blocks, f.phis, f'.phis) && BodiesInserted(p, blocks, f.body, f'.body)
  }

  lemma {:induction false} WithoutNothing(moved: set<Id>, instrs: seq<Instr>)
    requires forall i | 0 <= i < |instrs| :: !Leaves(moved, instrs[i])
    ensures Without(moved, instrs) == instrs
    decreases |instrs|
  {
    if instrs != [] {
      WithoutNothing(moved, instrs[..|instrs| - 1]);
      assert instrs == instrs[..|instrs| - 1] + [instrs[|instrs| - 1]];
    }
  }

  /** The listed blocks are the ones that matter. */
  ghost predicate ListedEnough(f: Func, p: Plan, blocks: seq<Block>)
    requires WellFormedFunc(f) && p.header in f.graph.blocks
  {
    && (forall b | b in blocks :: InLoop(f.graph, p.header, b))
    && (forall b, i | b in f.graph.blocks && b !in blocks && 0 <= i < |f.body[b]| :: !Leaves(IdsOf(p.moved), f.body[b][i]))
    && (forall k, v, u | 0 <= k < |f.phis[p.header]| && (v, u) in f.phis[p.header][k].pairs :: u in blocks <==> InLoop(f.graph, p.header, u))
  }

  lemma RelabelSame(f: Func, p: Plan, blocks: seq<Block>, k: nat)
    requires WellFormedFunc(f) && p.header in f.graph.blocks && ListedEnough(f, p, blocks) && k < |f.phis[p.header]|
    ensures Relabel(blocks, p.preheader, f.phis[p.header][k].pairs) == Relabelled(f, p, f.phis[p.header][k].pairs)
  {
    hide InLoop, WellFormed, Leaves, IdsOf;
    var pairs := f.phis[p.header][k].pairs;
    forall i | 0 <= i < |pairs| ensures Relabel(blocks, p.preheader, pairs)[i] == Relabelled(f, p, pairs)[i] {
      assert (pairs[i].0, pairs[i].1) in f.phis[p.header][k].pairs;
    }
  }

  lemma InsertedHoisted(f: Func, f': Func, p: Plan, blocks: seq<Block>)
    requires WellFormedFunc(f) && EnteredOnce(f, p) && ListedEnough(f, p, blocks) && Inserted(f, f', p, blocks)
    ensures Hoisted(f, f', p)
  {
    hide InLoop, WellFormed, Leaves, IdsOf, Without, Relabel;
    forall b | b in f.graph.blocks ensures f'.body[b] == Without(IdsOf(p.moved), f.body[b]) {
      if b !in blocks {
        WithoutNothing(IdsOf(p.moved), f.body[b]);
      }
    }
    forall b | b in f.graph.blocks ensures PhisMoved(f, p, b, f.phis[b], f'.phis[b]) {
      if b == p.header {
        forall k | 0 <= k < |f.phis[b]| ensures f'.phis[b][k] == Phi(f.phis[b][k].id, Relabelled(f, p, f.phis[b][k].pairs)) {
          RelabelSame(f, p, blocks, k);
        }
      }
    }
  }

  lemma InsertedFunc(f: Func, f': Func, p: Plan, blocks: seq<Block>)
    requires WellFormedFunc(f) && EnteredOnce(f, p) && Inserted(f, f', p, blocks)
    ensures WellFormedFunc(f') && EdgeSplit(f.graph, f'.graph, p.outside, p.header, p.preheader) && ListsChanged(f.graph, f'.graph, p)
  {
    hide InLoop, WellFormed, IdsOf, Without, Relabel, EdgeSplit, ListsChanged;
    assert InLoop(f.graph, p.header, p.header) by {
      HeaderIn(f.graph, p.header);
    }
    OneSuccessor(f, p);
    NewGraphEdges(f.graph, p);
    NewGraphFormed(f.graph, p);
    NewGraphLists(f.graph, p);
  }

  lemma HeaderIn(g: Graph, h: Block)
    requires IsHeader(g, h)
    ensures InLoop(g, h, h)
  {
  }

  lemma OneSuccessor(f: Func, p: Plan)
    requires WellFormedFunc(f) && EnteredOnce(f, p)
    ensures f.graph.succ[p.outside] == [p.header]
  {
    hide InLoop;
  }

  /** All moved operations are in blocks that the loop lists, when the loops inside are settled. */
  lemma ListedMoved(f: Func, p: Plan, impure: bool, ks: set<Block>, listed: map<Block, seq<Block>>)
    requires Hoistable(f, p) && AllMovable(impure, p.moved) && SsaForm(f) && ListsOk(f.graph, ks, listed) && p.header in ks
    requires forall c | c in ks && c != p.header && InLoop(f.graph, p.header, c) :: Settled(f, impure, c)
    ensures p.header in listed
    ensures forall b, i | b in f.graph.blocks && b !in listed[p.header] && 0 <= i < |f.body[b]| :: !Leaves(IdsOf(p.moved), f.body[b][i])
  {
    hide InLoop, ListsOk, Settled, BodyReady, TermReady, EdgeReady, ValuesOk, OperandsReady, MovedOk, IdsOf, PairsAtHeader, EnteredOnce, LoopGraph, AllMovable;
    PlanParts(f, p);
    ListsParts(f.graph, ks, listed, p.header);
    forall b, i | b in f.graph.blocks && b !in listed[p.header] && 0 <= i < |f.body[b]| ensures !Leaves(IdsOf(p.moved), f.body[b][i]) {
      if Leaves(IdsOf(p.moved), f.body[b][i]) {
        var k := MovedInLoop(f, p, b, i);
        var c :| c in ks && c != p.header && InLoop(f.graph, p.header, c) && InLoop(f.graph, c, b);
        forall x | InLoop(f.graph, c, x) ensures InLoop(f.graph, p.header, x) {
          InLoopTransitive(f.graph, p.header, c, x);
        }
        assert OfLoop(f, c, p.moved[k]);
        SettledStays(f, p, impure, c, k);
      }
    }
  }

  lemma ListedLabels(f: Func, p: Plan, ks: set<Block>, listed: map<Block, seq<Block>>)
    requires WellFormedFunc(f) && EnteredOnce(f, p) && PairsFrom(f, p.header, p.outside) && ListsOk(f.graph, ks, listed) && p.header in ks && p.header in listed
    ensures forall k, v, u | 0 <= k < |f.phis[p.header]| && (v, u) in f.phis[p.header][k].pairs :: u in listed[p.header] <==> InLoop(f.graph, p.header, u)
  {
    hide InLoop, ListsOk, InInner;
    ListsParts(f.graph, ks, listed, p.header);
  }
}
