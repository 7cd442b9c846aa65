/** The renamed function is in static single assignment form. */
module RenamedForm {
  import opened Common
  import opened Cfg
  import opened IdomTree
  import opened DominatorAnalysis
  import opened Ir
  import opened Ssa
  import opened Renaming
  import opened RenameProgress

  // ----- where instructions are when stores are gone -----

  function FinalPlace(s: Subst, instrs: seq<Instr>, i: nat): nat
    requires i <= |instrs|
  {
    |FinalBody(s, instrs[..i])|
  }

  lemma FinalNext(s: Subst, instrs: seq<Instr>, i: nat)
    requires i < |instrs|
    ensures FinalBody(s, instrs[..i + 1]) == FinalBody(s, instrs[..i]) + if instrs[i].Store? then [] else [ApplyInstr(s, instrs[i])]
  {
    assert instrs[..i + 1][..i] == instrs[..i];
  }

  lemma {:induction false} FinalOrder(s: Subst, instrs: seq<Instr>, i: nat, n: nat)
    requires i < n <= |instrs|
    ensures FinalPlace(s, instrs, i) <= FinalPlace(s, instrs, n)
    ensures !instrs[i].Store? ==>
              FinalPlace(s, instrs, i) < FinalPlace(s, instrs, n) && FinalBody(s, instrs[..n])[FinalPlace(s, instrs, i)] == ApplyInstr(s, instrs[i])
    decreases n
  {
    FinalNext(s, instrs, n - 1);
    if i < n - 1 {
      FinalOrder(s, instrs, i, n - 1);
    }
  }

  lemma {:induction false} FinalOf(s: Subst, instrs: seq<Instr>, n: nat, k: nat) returns (i: nat)
    requires n <= |instrs| && k < |FinalBody(s, instrs[..n])|
    ensures i < n && !instrs[i].Store? && FinalPlace(s, instrs, i) == k && FinalBody(s, instrs[..n])[k] == ApplyInstr(s, instrs[i])
    decreases n
  {
    assert n > 0;
    FinalNext(s, instrs, n - 1);
    if k < |FinalBody(s, instrs[..n - 1])| {
      i := FinalOf(s, instrs, n - 1, k);
    } else {
      i := n - 1;
    }
  }

  lemma FinalAll(s: Subst, instrs: seq<Instr>)
    ensures FinalPlace(s, instrs, |instrs|) == |FinalBody(s, instrs)|
  {
    assert instrs[..|instrs|] == instrs;
  }

  // ----- definitions -----

  lemma DefinedAfter(f: Func, f': Func, nm: Naming, id: Id, c: Block, j: nat)
    requires Renamed(f, f', nm) && Reachable(f.graph, c) && DefinedAt(f, id, c, j)
    ensures DefinedAt(f', id, c, FinalPlace(nm.subst, f.body[c], j))
    ensures forall i: nat | j < i <= |f.body[c]| :: FinalPlace(nm.subst, f.body[c], j) < FinalPlace(nm.subst, f.body[c], i)
  {
    hide PairsMatch, Reachable, FinalBody, FinalPlace;
    assert f.body[c][..|f.body[c]|] == f.body[c];
    FinalAll(nm.subst, f.body[c]);
    FinalOrder(nm.subst, f.body[c], j, |f.body[c]|);
    forall i: nat | j < i <= |f.body[c]| ensures FinalPlace(nm.subst, f.body[c], j) < FinalPlace(nm.subst, f.body[c], i) {
      FinalOrder(nm.subst, f.body[c], j, i);
    }
    FinalThere(nm.subst, f.body[c], j);
  }

  lemma FinalThere(s: Subst, instrs: seq<Instr>, j: nat)
    requires j < |instrs| && !instrs[j].Store?
    ensures FinalPlace(s, instrs, j) < |FinalBody(s, instrs)| && FinalBody(s, instrs)[FinalPlace(s, instrs, j)] == ApplyInstr(s, instrs[j])
  {
    assert instrs[..|instrs|] == instrs;
    FinalOrder(s, instrs, j, |instrs|);
  }

  lemma AvailableAfter(f: Func, f': Func, nm: Naming, id: Id, b: Block, i: nat)
    requires WellFormedFunc(f) && Renamed(f, f', nm) && b in f.graph.blocks && Reachable(f.graph, b) && i <= |f.body[b]| && Available(f, id, b, i)
    ensures Available(f', id, b, FinalPlace(nm.subst, f.body[b], i))
  {
    hide PairsMatch, Reachable, FinalBody, FinalPlace, Dominates, DefinedAt, WellFormed;
    var c, j :| DefinedAt(f, id, c, j) && ((c == b && j < i) || StrictlyDominates(f.graph, c, b));
    if c != b {
      DominatorReachable(f.graph, c, b);
    }
    IndexOf(f, id, c, j);
    DefinedAfter(f, f', nm, id, c, j);
    var k := FinalPlace(nm.subst, f.body[c], j);
    assert DefinedAt(f', id, c, k) && ((c == b && k < FinalPlace(nm.subst, f.body[b], i)) || StrictlyDominates(f'.graph, c, b));
  }

  lemma IndexOf(f: Func, id: Id, c: Block, j: int)
    requires DefinedAt(f, id, c, j)
    ensures c in f.body && 0 <= j < |f.body[c]|
  {
  }

  lemma InScopeAfter(f: Func, f': Func, nm: Naming, v: Val, b: Block, i: nat)
    requires WellFormedFunc(f) && Renamed(f, f', nm) && b in f.graph.blocks && Reachable(f.graph, b) && i <= |f.body[b]| && InScope(f, v, b, i)
    ensures InScope(f', v, b, FinalPlace(nm.subst, f.body[b], i))
  {
    hide PairsMatch, Reachable, FinalBody, FinalPlace, Dominates, Available, WellFormed;
    if v.Res? {
      if Available(f, v.id, b, i) {
        AvailableAfter(f, f', nm, v.id, b, i);
      } else {
        var c, k :| PhiAt(f, v.id, c, k) && Dominates(f.graph, c, b);
        DominatorReachable(f.graph, c, b);
        assert PhiAt(f', v.id, c, k) && Dominates(f'.graph, c, b);
      }
    }
  }

  // ----- uses -----

  lemma UsesAfter(s: Subst, instr: Instr, w: Val)
    requires w in Uses(ApplyInstr(s, instr))
    ensures exists v :: v in Uses(instr) && w == Apply(s, v)
  {
    match instr
    case Load(_, _) =>
    case Store(v, _) => assert v in Uses(instr);
    case Op(_, _, vs) =>
      var i :| 0 <= i < |vs| && ApplyAll(s, vs)[i] == w;
      assert vs[i] in Uses(instr);
  }

  lemma TermUsesAfter(s: Subst, t: Term, w: Val)
    requires w in TermUses(ApplyTerm(s, t))
    ensures exists v :: v in TermUses(t) && w == Apply(s, v)
  {
    match t
    case Br(_) =>
    case CondBr(v, _, _) => assert v in TermUses(t);
    case Ret(v) => assert v.Some? ==> v.value in TermUses(t);
  }

  lemma BlockReadyAfter(f: Func, f': Func, m: IdomMap, nm: Naming, b: Block)
    requires RenamingInput(f, m, nm.slotOf) && Named(f, m, nm) && Renamed(f, f', nm) && b in f.graph.blocks && Reachable(f.graph, b)
    ensures b in f'.body && b in f'.term && BodyReady(f', b) && TermReady(f', b)
  {
    hide RenamingInput, Named, PairsMatch, Reachable, FinalBody, FinalPlace, InScope;
    InputParts(f, m, nm);
    var s := nm.subst;
    assert f.body[b][..|f.body[b]|] == f.body[b];
    FinalAll(s, f.body[b]);
    forall k, w | 0 <= k < |f'.body[b]| && w in Uses(f'.body[b][k]) ensures InScope(f', w, b, k) {
      var i := FinalOf(s, f.body[b], |f.body[b]|, k);
      UsesAfter(s, f.body[b][i], w);
      var v :| v in Uses(f.body[b][i]) && w == Apply(s, v);
      UsesAvailable(f, b, i, v);
      ReplacedInScope(f, m, nm, v, b, i);
      InScopeAfter(f, f', nm, w, b, i);
    }
    forall w | w in TermUses(f'.term[b]) ensures InScope(f', w, b, |f'.body[b]|) {
      TermUsesAfter(s, f.term[b], w);
      var v :| v in TermUses(f.term[b]) && w == Apply(s, v);
      TermUsesAvailable(f, b, v);
      ReplacedInScope(f, m, nm, v, b, |f.body[b]|);
      InScopeAfter(f, f', nm, w, b, |f.body[b]|);
    }
  }

  lemma InputParts(f: Func, m: IdomMap, nm: Naming)
    requires RenamingInput(f, m, nm.slotOf)
    ensures WellFormedFunc(f) && UsesDominated(f)
  {
    hide IdomCorrect, PhisFresh, PhisClosed, UsesDominated, UniqueIds;
  }

  lemma UsesAvailable(f: Func, b: Block, i: nat, v: Val)
    requires UsesDominated(f) && b in f.graph.blocks && Reachable(f.graph, b) && b in f.body && b in f.term && i < |f.body[b]| && v in Uses(f.body[b][i])
    ensures v.Res? ==> Available(f, v.id, b, i)
  {
    hide Available, Reachable;
    assert AllAvailable(f, Uses(f.body[b][i]), b, i);
  }

  lemma TermUsesAvailable(f: Func, b: Block, v: Val)
    requires UsesDominated(f) && b in f.graph.blocks && Reachable(f.graph, b) && b in f.body && b in f.term && v in TermUses(f.term[b])
    ensures v.Res? ==> Available(f, v.id, b, |f.body[b]|)
  {
    hide Available, Reachable;
    assert AllAvailable(f, TermUses(f.term[b]), b, |f.body[b]|);
  }

  /** What a phi gets on an edge is the top of a stack at the end of the predecessor. */
  lemma EdgeReadyAfter(f: Func, f': Func, m: IdomMap, nm: Naming, u: Block, b: Block)
    requires RenamingInput(f, m, nm.slotOf) && Named(f, m, nm) && Renamed(f, f', nm) && Edge(f.graph, u, b) && Reachable(f.graph, u)
    ensures u in f'.body && b in f'.phis && EdgeReady(f', u, b)
  {
    hide RenamingInput, Reachable, FinalBody, FinalPlace, InScope, TopsAt, LoadNamed;
    InputParts(f, m, nm);
    SuccReachable(f.graph, u, b);
    assert BlockNamed(f, nm, u);
    FinalAll(nm.subst, f.body[u]);
    forall k, v | 0 <= k < |f'.phis[b]| && Incoming(f'.phis[b][k].pairs, u) == Some(v) ensures InScope(f', v, u, |f'.body[u]|) {
      assert PairsMatch(f, nm, b, f'.phis[b][k]);
      TopsInScope(f, m, nm, u, |f.body[u]|, nm.slotOf[f'.phis[b][k].id]);
      InScopeAfter(f, f', nm, v, u, |f.body[u]|);
    }
  }

  // ----- single definitions -----

  lemma DefinedFrom(f: Func, s: Subst, erased: set<Block>, f': Func, id: Id, c: Block, k: nat) returns (j: nat)
    requires BodiesAre(f, s, erased, f') && DefinedAt(f', id, c, k)
    ensures DefinedAt(f, id, c, j) && k == if c in erased then FinalPlace(s, f.body[c], j) else j
  {
    hide FinalBody, FinalPlace;
    if c in erased {
      assert f.body[c][..|f.body[c]|] == f.body[c];
      j := FinalOf(s, f.body[c], |f.body[c]|, k);
    } else {
      j := k;
    }
  }

  lemma IdsApartAfter(f: Func, m: IdomMap, slotOf: map<Id, Slot>, pr: Progress, f': Func)
    requires RenamingInput(f, m, slotOf) && InProgress(f, m, slotOf, pr, f')
    ensures IdsApart(f')
  {
    hide UsesDominated, IdomCorrect, PhisClosed, ScannedOk, SubstOk, EdgesLinked, PairsSoFar, DefinedAt, FinalPlace, WellFormed;
    forall id, b, i ensures PhiAt(f', id, b, i) ==> PhiAt(f, id, b, i) {
    }
    forall id, b, i, c, j | DefinedAt(f', id, b, i) && DefinedAt(f', id, c, j) ensures b == c && i == j {
      IndexOf(f', id, b, i);
      IndexOf(f', id, c, j);
      var x := DefinedFrom(f, pr.subst, pr.erased, f', id, b, i);
      var y := DefinedFrom(f, pr.subst, pr.erased, f', id, c, j);
    }
    forall id, b, i, c, j ensures !(PhiAt(f', id, b, i) && DefinedAt(f', id, c, j)) {
      if PhiAt(f', id, b, i) && DefinedAt(f', id, c, j) {
        IndexOf(f', id, c, j);
        var y := DefinedFrom(f, pr.subst, pr.erased, f', id, c, j);
      }
    }
  }

  lemma {:induction false} IncomingSome(pairs: seq<(Val, Block)>, v: Val, u: Block)
    requires (v, u) in pairs
    ensures Incoming(pairs, u).Some?
  {
    if pairs[0].1 != u {
      IncomingSome(pairs[1..], v, u);
    }
  }

  lemma PairsAfterRenaming(f: Func, m: IdomMap, slotOf: map<Id, Slot>, pr: Progress, f': Func)
    requires InProgress(f, m, slotOf, pr, f')
    ensures PairsOnEdges(f')
  {
    hide SubstOk, BlockNamed, StartsRight, Resolved, Dominates, FinalBody;
    forall b, k, v, u | b in f'.graph.blocks && b in f'.phis && 0 <= k < |f'.phis[b]| && (v, u) in f'.phis[b][k].pairs ensures Edge(f'.graph, u, b) && Reachable(f'.graph, u) {
      IncomingSome(f'.phis[b][k].pairs, v, u);
      assert PairsSoFar(f, slotOf, pr, b, f'.phis[b][k]);
    }
  }

  /** After renaming, definitions dominate their uses. */
  lemma RenamedIsSsa(f: Func, m: IdomMap, slotOf: map<Id, Slot>, pr: Progress, f': Func)
    requires RenamingInput(f, m, slotOf) && InProgress(f, m, slotOf, pr, f') && WellFormedFunc(f')
    requires forall b | b in f.graph.blocks && Reachable(f.graph, b) :: b in pr.scanned && b in pr.erased
    ensures SsaForm(f') && PairsOnEdges(f')
  {
    hide RenamingInput, InProgress, Named, Renamed, Reachable, BodyReady, TermReady, EdgeReady, IdsApart, PairsOnEdges, WellFormed;
    var nm := NamingOf(slotOf, pr);
    ProgressEnd(f, m, slotOf, pr, f');
    SameGraph(f, f', nm);
    IdsApartAfter(f, m, slotOf, pr, f');
    PairsAfterRenaming(f, m, slotOf, pr, f');
    forall b | b in f'.graph.blocks && Reachable(f'.graph, b) ensures BodyReady(f', b) && TermReady(f', b) {
      BlockReadyAfter(f, f', m, nm, b);
    }
    forall u, b | Edge(f'.graph, u, b) ensures u in f'.body && b in f'.phis {
      EdgeEnds(f', u, b);
    }
    forall u, b | Edge(f'.graph, u, b) && Reachable(f'.graph, u) ensures EdgeReady(f', u, b) {
      EdgeReadyAfter(f, f', m, nm, u, b);
    }
  }

  lemma SameGraph(f: Func, f': Func, nm: Naming)
    requires Renamed(f, f', nm)
    ensures f'.graph == f.graph
  {
  }
}
