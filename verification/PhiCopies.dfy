/** Phis become copies at the end of the predecessor, one after the other; what that
    has to do with the parallel assignment that phis mean. */
module PhiCopies {
  import opened Common
  import opened Cfg
  import opened LoongArch
  import opened Frame
  import opened LowIr
  import opened Fragments

  /** A copy of an operand into the slot of a phi. */
  type Copy = (Id, Operand)

  function IncomingOperand(pairs: seq<(Operand, Block)>, from: Block): Option<Operand> {
    if pairs == [] then None
    else if pairs[0].1 == from then Some(pairs[0].0)
    else IncomingOperand(pairs[1..], from)
  }

  /** The copies for one edge: one per phi that has a pair for the predecessor. */
  function EdgeCopies(phis: seq<Phi>, from: Block): seq<Copy> {
    if phis == [] then []
    else
      var init, last := EdgeCopies(phis[..|phis| - 1], from), phis[|phis| - 1];
      match IncomingOperand(last.pairs, from)
      case Some(v) => init + [(last.id, v)]
      case None => init
  }

  /** The copies for all edges of a block, whichever is taken. */
  function CopiesFor(phis: map<Block, seq<Phi>>, succs: seq<Block>, from: Block): seq<Copy> {
    if succs == [] then []
    else
      var last := succs[|succs| - 1];
      CopiesFor(phis, succs[..|succs| - 1], from) + if last in phis then EdgeCopies(phis[last], from) else []
  }

  // ----- sequential and parallel -----

  /** A copy of an operand that has no value leaves none. */
  ghost function SequentialCopy(l: Layout, s: IrState, cs: seq<Copy>): IrState {
    if cs == [] then s
    else
      var s' := SequentialCopy(l, s, cs[..|cs| - 1]);
      var c := cs[|cs| - 1];
      Assign(s', c.0, IsSet(s', c.1), Value(l, s', c.1))
  }

  /** All operands are read first. */
  ghost function ParallelCopy(l: Layout, s: IrState, cs: seq<Copy>): IrState {
    if cs == [] then s
    else
      var s' := ParallelCopy(l, s, cs[..|cs| - 1]);
      var c := cs[|cs| - 1];
      Assign(s', c.0, IsSet(s, c.1), Value(l, s, c.1))
  }

  /** No copy reads what an earlier copy has overwritten, unless that one copied a value onto itself. */
  ghost predicate CopyFree(cs: seq<Copy>) {
    forall j, k | 0 <= j < k < |cs| && cs[k].1 == Var(cs[j].0) :: cs[j].1 == Var(cs[j].0)
  }

  ghost predicate DistinctTargets(cs: seq<Copy>) {
    forall j, k | 0 <= j < k < |cs| :: cs[j].0 != cs[k].0
  }

  lemma {:induction false} ParallelElsewhere(l: Layout, s: IrState, cs: seq<Copy>, x: Id)
    requires forall j | 0 <= j < |cs| && cs[j].0 == x :: cs[j].1 == Var(x)
    ensures IsSet(ParallelCopy(l, s, cs), Var(x)) <==> IsSet(s, Var(x))
    ensures Value(l, ParallelCopy(l, s, cs), Var(x)) == Value(l, s, Var(x))
    decreases |cs|
  {
    if cs != [] {
      var last := |cs| - 1;
      ParallelElsewhere(l, s, cs[..last], x);
      assert cs[last].0 == x ==> cs[last].1 == Var(x);
    }
  }

  lemma {:induction false} FreeIsParallel(l: Layout, s: IrState, cs: seq<Copy>)
    requires CopyFree(cs)
    ensures SequentialCopy(l, s, cs) == ParallelCopy(l, s, cs)
    decreases |cs|
  {
    if cs != [] {
      var init, last := cs[..|cs| - 1], cs[|cs| - 1];
      FreeIsParallel(l, s, init);
      if last.1.Var? {
        ParallelElsewhere(l, s, init, last.1.id);
      }
    }
  }

  /** An environment that tells everything apart: x has one value, all else another. */
  ghost function Witness(ids: set<Id>, x: Id, c: int): map<Id, int> {
    map i | i in ids :: if i == x then c else c + 1
  }

  ghost function Mentioned(cs: seq<Copy>): set<Id> {
    (set c | c in cs :: c.0) + set c | c in cs && c.1.Var? :: c.1.id
  }

  lemma {:induction false} SequentialAt(l: Layout, s: IrState, cs: seq<Copy>, j: nat, n: nat)
    requires DistinctTargets(cs) && j < n <= |cs|
    ensures cs[j].0 in SequentialCopy(l, s, cs[..n]).env <==> IsSet(SequentialCopy(l, s, cs[..j]), cs[j].1)
    ensures cs[j].0 in SequentialCopy(l, s, cs[..n]).env ==> SequentialCopy(l, s, cs[..n]).env[cs[j].0] == Value(l, SequentialCopy(l, s, cs[..j]), cs[j].1)
    decreases n
  {
    assert cs[..n][..n - 1] == cs[..n - 1];
    if n > j + 1 {
      SequentialAt(l, s, cs, j, n - 1);
    }
  }

  lemma {:induction false} ParallelAt(l: Layout, s: IrState, cs: seq<Copy>, j: nat, n: nat)
    requires DistinctTargets(cs) && j < n <= |cs|
    ensures cs[j].0 in ParallelCopy(l, s, cs[..n]).env <==> IsSet(s, cs[j].1)
    ensures cs[j].0 in ParallelCopy(l, s, cs[..n]).env ==> ParallelCopy(l, s, cs[..n]).env[cs[j].0] == Value(l, s, cs[j].1)
    decreases n
  {
    assert cs[..n][..n - 1] == cs[..n - 1];
    if n > j + 1 {
      ParallelAt(l, s, cs, j, n - 1);
    }
  }

  /** Where copy k reads what copy j has overwritten, the results differ if the values do. */
  lemma ClashDiffers(l: Layout, s: IrState, cs: seq<Copy>, j: nat, k: nat)
    requires DistinctTargets(cs) && j < k < |cs| && CopyFree(cs[..k]) && cs[k].1 == Var(cs[j].0)
    requires IsSet(s, cs[j].1) && cs[j].0 in s.env && Value(l, s, cs[j].1) != Value(l, s, Var(cs[j].0))
    ensures SequentialCopy(l, s, cs) != ParallelCopy(l, s, cs)
  {
    hide SequentialCopy, ParallelCopy;
    SequentialAt(l, s, cs, k, |cs|);
    SequentialAt(l, s, cs, j, k);
    ParallelAt(l, s, cs, k, |cs|);
    assert cs[..|cs|] == cs && cs[..k][..j] == cs[..j];
    assert CopyFree(cs[..j]) by {
      forall a, b | 0 <= a < b < j && cs[..j][b].1 == Var(cs[..j][a].0) ensures cs[..j][a].1 == Var(cs[..j][a].0) {
        assert cs[..k][b].1 == Var(cs[..k][a].0);
      }
    }
    FreeIsParallel(l, s, cs[..j]);
    if cs[j].1.Var? {
      FreeReads(cs, j, k);
      ParallelElsewhere(l, s, cs[..j], cs[j].1.id);
    } else {
      assert Value(l, SequentialCopy(l, s, cs[..j]), cs[j].1) == Value(l, s, cs[j].1);
    }
  }

  /** A clash shows: in some environment the copies one by one give another result. */
  lemma ClashShows(l: Layout, cs: seq<Copy>, mem: Memory, trace: Trace) returns (s: IrState)
    requires DistinctTargets(cs) && !CopyFree(cs)
    ensures s.mem == mem && s.trace == trace && SequentialCopy(l, s, cs) != ParallelCopy(l, s, cs)
  {
    hide SequentialCopy, ParallelCopy, DistinctTargets;
    var k := FirstClash(cs);
    var j :| 0 <= j < k && cs[k].1 == Var(cs[j].0) && cs[j].1 != Var(cs[j].0);
    var x := cs[j].0;
    var c := match cs[j].1 { case Int(v) => v + 1 case Global(g) => (if g in l.globals then l.globals[g] else 0) + 1 case Var(_) => 0 };
    s := IrState(Witness(Mentioned(cs), x, c), mem, trace);
    assert cs[j] in cs;
    ClashDiffers(l, s, cs, j, k);
  }

  /** The first position at which a prefix stops being free of clashes. */
  lemma FirstClash(cs: seq<Copy>) returns (k: nat)
    requires !CopyFree(cs)
    ensures k < |cs| && CopyFree(cs[..k]) && exists j :: 0 <= j < k && cs[k].1 == Var(cs[j].0) && cs[j].1 != Var(cs[j].0)
  {
    k := 0;
    assert cs[..|cs|] == cs;
    while CopyFree(cs[..k + 1])
      invariant k < |cs| && CopyFree(cs[..k])
      decreases |cs| - k
    {
      k := k + 1;
    }
    forall a, b | 0 <= a < b < k && cs[b].1 == Var(cs[a].0) ensures cs[a].1 == Var(cs[a].0) {
      assert cs[..k][b].1 == Var(cs[..k][a].0);
    }
    var a, b :| 0 <= a < b < k + 1 && cs[..k + 1][b].1 == Var(cs[..k + 1][a].0) && cs[..k + 1][a].1 != Var(cs[..k + 1][a].0);
  }

  lemma FreeReads(cs: seq<Copy>, j: nat, k: nat)
    requires j < k <= |cs| && CopyFree(cs[..k]) && cs[j].1.Var?
    ensures forall i | 0 <= i < j && cs[..j][i].0 == cs[j].1.id :: cs[..j][i].1 == Var(cs[j].1.id)
  {
    forall i | 0 <= i < j && cs[..j][i].0 == cs[j].1.id ensures cs[..j][i].1 == Var(cs[j].1.id) {
      assert cs[..k][j].1 == Var(cs[..k][i].0);
    }
  }

  /** One after the other is the parallel assignment, for all values, if and only if no copy
      reads a phi that an earlier copy has overwritten. */
  lemma CopiesExact(l: Layout, cs: seq<Copy>, mem: Memory, trace: Trace)
    requires DistinctTargets(cs)
    ensures CopyFree(cs) <==> forall env: map<Id, int> ::
              SequentialCopy(l, IrState(env, mem, trace), cs) == ParallelCopy(l, IrState(env, mem, trace), cs)
  {
    if CopyFree(cs) {
      forall env: map<Id, int>
        ensures SequentialCopy(l, IrState(env, mem, trace), cs) == ParallelCopy(l, IrState(env, mem, trace), cs)
      {
        FreeIsParallel(l, IrState(env, mem, trace), cs);
      }
    } else {
      var s := ClashShows(l, cs, mem, trace);
      assert s == IrState(s.env, mem, trace);
    }
  }

  /** Two phis that swap their values on an edge clash. */
  lemma SwapClashes(x: Id, y: Id)
    requires x != y
    ensures DistinctTargets([(x, Var(y)), (y, Var(x))]) && !CopyFree([(x, Var(y)), (y, Var(x))])
  {
    var cs: seq<Copy> := [(x, Var(y)), (y, Var(x))];
    assert cs[1].1 == Var(cs[0].0) && cs[0].1 != Var(cs[0].0);
  }

  // ----- the code -----

  /** Operands have the types of the phis. */
  ghost predicate CopiesTyped(l: Layout, cs: seq<Copy>) {
    forall c | c in cs :: c.0 in l.off && c.0 in l.ty && HasType(l, c.1, l.ty[c.0])
  }

  ghost predicate Copies(off: map<Id, int>, ty: map<Id, Type>, code: seq<Asm>, cs: seq<Copy>) {
    forall l, s, st | Fits(l, off, ty) && Agree(l, s, st) && CopiesTyped(l, cs) ::
      Agree(l, SequentialCopy(l, s, cs), Exec(st, code))
  }

  lemma CopiesStart(off: map<Id, int>, ty: map<Id, Type>)
    ensures Copies(off, ty, [], [])
  {
    hide Agree, Fits;
  }

  lemma CopiesNext(off: map<Id, int>, ty: map<Id, Type>, code: seq<Asm>, cs: seq<Copy>, c1: seq<Asm>, c2: seq<Asm>, id: Id, v: Operand)
    requires Copies(off, ty, code, cs) && Loads(off, ty, c1, v, A(0)) && Stores(off, ty, c2, id, A(0)) && id in off && id in ty
    ensures Copies(off, ty, code + c1 + c2, cs + [(id, v)])
  {
    hide Agree, LayoutOk, CalleesObey, Exec, Loads, Stores, HasType;
    var cs' := cs + [(id, v)];
    forall l, s, st | Fits(l, off, ty) && Agree(l, s, st) && CopiesTyped(l, cs')
      ensures Agree(l, SequentialCopy(l, s, cs'), Exec(st, code + c1 + c2))
    {
      assert cs'[..|cs|] == cs && (id, v) in cs' && forall c | c in cs :: c in cs';
      var s1, st1 := SequentialCopy(l, s, cs), Exec(st, code);
      CopyRuns(off, ty, c1, c2, id, v, l, s1, st1);
      ExecAppend(st, code, c1 + c2);
      assert code + c1 + c2 == code + (c1 + c2);
    }
  }

  /** One copy: whatever is in the slot of the operand goes to the slot of the phi. */
  lemma CopyRuns(off: map<Id, int>, ty: map<Id, Type>, c1: seq<Asm>, c2: seq<Asm>, id: Id, v: Operand, l: Layout, s: IrState, st: State)
    requires Loads(off, ty, c1, v, A(0)) && Stores(off, ty, c2, id, A(0)) && id in off && id in ty
    requires Fits(l, off, ty) && Agree(l, s, st) && HasType(l, v, ty[id])
    ensures Agree(l, Assign(s, id, IsSet(s, v), Value(l, s, v)), Exec(st, c1 + c2))
  {
    hide Agree, LayoutOk, CalleesObey, Exec, Loads, Stores, HasType, Represents;
    var s0 := Completed(l, s, st);
    CompletedAgrees(l, s, st);
    CompletedValue(l, s, st, v, ty[id]);
    UseLoads(off, ty, c1, v, A(0), l, s0, st);
    UseStores(off, ty, c1, c2, id, A(0), l, s0, st, Value(l, s0, v));
    AssignAgrees(l, s, st, id, IsSet(s, v), Value(l, s, v), Value(l, s0, v), Exec(st, c1 + c2));
  }
}
