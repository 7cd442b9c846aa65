/** The state of a renaming in progress: which blocks have been scanned, what the
    replacements and stack tops are so far, and how the code looks meanwhile. */
module RenameProgress {
  import opened Common
  import opened Cfg
  import opened IdomTree
  import opened DominatorAnalysis
  import opened Ir
  import opened Renaming

  type StackMap = map<Slot, seq<Val>>

  function ApplyBody(s: Subst, instrs: seq<Instr>): (r: seq<Instr>)
    ensures |r| == |instrs| && forall i | 0 <= i < |instrs| :: r[i] == ApplyInstr(s, instrs[i])
  {
    seq(|instrs|, i requires 0 <= i < |instrs| => ApplyInstr(s, instrs[i]))
  }

  function ApplyPairs(s: Subst, pairs: seq<(Val, Block)>): (r: seq<(Val, Block)>)
    ensures |r| == |pairs| && forall i | 0 <= i < |pairs| :: r[i] == (Apply(s, pairs[i].0), pairs[i].1)
  {
    seq(|pairs|, i requires 0 <= i < |pairs| => (Apply(s, pairs[i].0), pairs[i].1))
  }

  function ApplyPhis(s: Subst, phis: seq<Phi>): (r: seq<Phi>)
    ensures |r| == |phis| && forall k | 0 <= k < |phis| :: r[k] == Phi(phis[k].id, ApplyPairs(s, phis[k].pairs))
  {
    seq(|phis|, k requires 0 <= k < |phis| => Phi(phis[k].id, ApplyPairs(s, phis[k].pairs)))
  }

  function DropStores(instrs: seq<Instr>): seq<Instr> {
    if instrs == [] then []
    else
      var init := DropStores(instrs[..|instrs| - 1]);
      var last := instrs[|instrs| - 1];
      if last.Store? then init else init + [last]
  }

  lemma {:induction false} DropAfterApply(s: Subst, instrs: seq<Instr>)
    ensures DropStores(ApplyBody(s, instrs)) == FinalBody(s, instrs)
    decreases |instrs|
  {
    if instrs != [] {
      var init := instrs[..|instrs| - 1];
      DropAfterApply(s, init);
      assert ApplyBody(s, instrs)[..|instrs| - 1] == ApplyBody(s, init);
    }
  }

  // ----- stacks -----

  function StackOf(st: StackMap, x: Slot): seq<Val> {
    if x in st then st[x] else []
  }

  /** The tops of all non-empty stacks. */
  function StackTops(st: StackMap): Tops {
    map x | x in st && st[x] != [] :: st[x][|st[x]| - 1]
  }

  function Push(st: StackMap, x: Slot, v: Val): StackMap {
    st[x := StackOf(st, x) + [v]]
  }

  lemma PushTops(st: StackMap, x: Slot, v: Val)
    ensures StackTops(Push(st, x, v)) == StackTops(st)[x := v]
  {
  }

  ghost predicate SameStacks(st: StackMap, st': StackMap) {
    forall x :: StackOf(st, x) == StackOf(st', x)
  }

  lemma SameStacksTops(st: StackMap, st': StackMap)
    requires SameStacks(st, st')
    ensures StackTops(st) == StackTops(st')
  {
    forall x ensures x in StackTops(st) <==> x in StackTops(st') {
      assert StackOf(st, x) == StackOf(st', x);
    }
    forall x | x in StackTops(st) ensures StackTops(st)[x] == StackTops(st')[x] {
      assert StackOf(st, x) == StackOf(st', x);
    }
  }

  function StoreCount(instrs: seq<Instr>, x: Slot): nat {
    if instrs == [] then 0
    else
      var last := instrs[|instrs| - 1];
      StoreCount(instrs[..|instrs| - 1], x) + if last.Store? && last.slot == x then 1 else 0
  }

  function PhiCount(slotOf: map<Id, Slot>, phis: seq<Phi>, x: Slot): nat {
    if phis == [] then 0
    else
      var last := phis[|phis| - 1];
      PhiCount(slotOf, phis[..|phis| - 1], x) + if last.id in slotOf && slotOf[last.id] == x then 1 else 0
  }

  /** st is st0 with one value pushed for each of the phis and stores. */
  ghost predicate Grown(slotOf: map<Id, Slot>, st0: StackMap, st: StackMap, phis: seq<Phi>, instrs: seq<Instr>) {
    forall x :: StackOf(st0, x) <= StackOf(st, x) &&
                |StackOf(st, x)| == |StackOf(st0, x)| + PhiCount(slotOf, phis, x) + StoreCount(instrs, x)
  }

  lemma GrownPhi(slotOf: map<Id, Slot>, st0: StackMap, st: StackMap, phis: seq<Phi>, k: nat, v: Val)
    requires k < |phis| && phis[k].id in slotOf && Grown(slotOf, st0, st, phis[..k], [])
    ensures Grown(slotOf, st0, Push(st, slotOf[phis[k].id], v), phis[..k + 1], [])
  {
    assert phis[..k + 1][..k] == phis[..k];
    forall x ensures StackOf(st0, x) <= StackOf(Push(st, slotOf[phis[k].id], v), x) &&
                     |StackOf(Push(st, slotOf[phis[k].id], v), x)|
                       == |StackOf(st0, x)| + PhiCount(slotOf, phis[..k + 1], x) + StoreCount([], x)
    {
      assert |StackOf(st, x)| == |StackOf(st0, x)| + PhiCount(slotOf, phis[..k], x) + StoreCount([], x);
    }
  }

  lemma GrownStore(slotOf: map<Id, Slot>, st0: StackMap, st: StackMap, phis: seq<Phi>, instrs: seq<Instr>, i: nat, v: Val)
    requires i < |instrs| && Grown(slotOf, st0, st, phis, instrs[..i]) && instrs[i].Store?
    ensures Grown(slotOf, st0, Push(st, instrs[i].slot, v), phis, instrs[..i + 1])
  {
    hide PhiCount;
    assert instrs[..i + 1][..i] == instrs[..i];
    var st' := Push(st, instrs[i].slot, v);
    forall x ensures StackOf(st0, x) <= StackOf(st', x) &&
                     |StackOf(st', x)| == |StackOf(st0, x)| + PhiCount(slotOf, phis, x) + StoreCount(instrs[..i + 1], x)
    {
      assert |StackOf(st, x)| == |StackOf(st0, x)| + PhiCount(slotOf, phis, x) + StoreCount(instrs[..i], x);
    }
  }

  lemma CountOther(instrs: seq<Instr>, i: nat)
    requires i < |instrs| && !instrs[i].Store?
    ensures forall x :: StoreCount(instrs[..i + 1], x) == StoreCount(instrs[..i], x)
  {
    assert instrs[..i + 1][..i] == instrs[..i];
  }

  /** st is what is left of end after popping for the given phis and stores. */
  ghost predicate Shrunk(slotOf: map<Id, Slot>, end: StackMap, st: StackMap, phis: seq<Phi>, instrs: seq<Instr>) {
    forall x :: StackOf(st, x) <= StackOf(end, x) &&
                |StackOf(end, x)| == |StackOf(st, x)| + PhiCount(slotOf, phis, x) + StoreCount(instrs, x)
  }

  lemma ShrunkPhi(slotOf: map<Id, Slot>, end: StackMap, st: StackMap, phis: seq<Phi>, k: nat)
    requires k < |phis| && phis[k].id in slotOf && Shrunk(slotOf, end, st, phis[..k], [])
    requires var x := slotOf[phis[k].id]; StackOf(st, x) != []
    ensures var x := slotOf[phis[k].id]; var s := StackOf(st, x);
            Shrunk(slotOf, end, st[x := s[..|s| - 1]], phis[..k + 1], [])
  {
    assert phis[..k + 1][..k] == phis[..k];
    var y := slotOf[phis[k].id];
    var st' := st[y := StackOf(st, y)[..|StackOf(st, y)| - 1]];
    forall x ensures StackOf(st', x) <= StackOf(end, x) &&
                     |StackOf(end, x)| == |StackOf(st', x)| + PhiCount(slotOf, phis[..k + 1], x) + StoreCount([], x)
    {
      assert |StackOf(end, x)| == |StackOf(st, x)| + PhiCount(slotOf, phis[..k], x) + StoreCount([], x);
    }
  }

  lemma ShrunkStore(slotOf: map<Id, Slot>, end: StackMap, st: StackMap, phis: seq<Phi>, instrs: seq<Instr>, i: nat)
    requires i < |instrs| && Shrunk(slotOf, end, st, phis, instrs[..i]) && instrs[i].Store?
    requires StackOf(st, instrs[i].slot) != []
    ensures var s := StackOf(st, instrs[i].slot);
            Shrunk(slotOf, end, st[instrs[i].slot := s[..|s| - 1]], phis, instrs[..i + 1])
  {
    hide PhiCount;
    assert instrs[..i + 1][..i] == instrs[..i];
    var s := StackOf(st, instrs[i].slot);
    var st' := st[instrs[i].slot := s[..|s| - 1]];
    forall x ensures StackOf(st', x) <= StackOf(end, x) &&
                     |StackOf(end, x)| == |StackOf(st', x)| + PhiCount(slotOf, phis, x) + StoreCount(instrs[..i + 1], x)
    {
      assert |StackOf(end, x)| == |StackOf(st, x)| + PhiCount(slotOf, phis, x) + StoreCount(instrs[..i], x);
    }
  }

  lemma {:induction false} StoreCountPrefix(instrs: seq<Instr>, i: nat, x: Slot)
    requires i <= |instrs|
    ensures StoreCount(instrs[..i], x) <= StoreCount(instrs, x)
    ensures i < |instrs| && instrs[i].Store? && instrs[i].slot == x ==> StoreCount(instrs[..i], x) < StoreCount(instrs, x)
    decreases |instrs|
  {
    if i < |instrs| {
      var init := instrs[..|instrs| - 1];
      assert init[..i] == instrs[..i];
      StoreCountPrefix(init, i, x);
    } else {
      assert instrs[..i] == instrs;
    }
  }

  lemma {:induction false} PhiCountPrefix(slotOf: map<Id, Slot>, phis: seq<Phi>, k: nat, x: Slot)
    requires k <= |phis|
    ensures PhiCount(slotOf, phis[..k], x) <= PhiCount(slotOf, phis, x)
    ensures k < |phis| && phis[k].id in slotOf && slotOf[phis[k].id] == x ==>
              PhiCount(slotOf, phis[..k], x) < PhiCount(slotOf, phis, x)
    decreases |phis|
  {
    if k < |phis| {
      var init := phis[..|phis| - 1];
      assert init[..k] == phis[..k];
      PhiCountPrefix(slotOf, init, k, x);
    } else {
      assert phis[..k] == phis;
    }
  }

  /** While pops remain to be done, the stack concerned is not empty. */
  lemma PopPossible(slotOf: map<Id, Slot>, st0: StackMap, end: StackMap, st: StackMap, phis: seq<Phi>, instrs: seq<Instr>, k: nat, i: nat)
    requires Grown(slotOf, st0, end, phis, instrs)
    requires k <= |phis| && i <= |instrs| && Shrunk(slotOf, end, st, phis[..k], instrs[..i])
    ensures k < |phis| && phis[k].id in slotOf ==> StackOf(st, slotOf[phis[k].id]) != []
    ensures i < |instrs| && instrs[i].Store? ==> StackOf(st, instrs[i].slot) != []
  {
    forall x ensures |StackOf(st, x)| + PhiCount(slotOf, phis[..k], x) + StoreCount(instrs[..i], x)
                       == |StackOf(st0, x)| + PhiCount(slotOf, phis, x) + StoreCount(instrs, x)
    {
      assert |StackOf(end, x)| == |StackOf(st, x)| + PhiCount(slotOf, phis[..k], x) + StoreCount(instrs[..i], x);
    }
    if k < |phis| && phis[k].id in slotOf {
      PhiCountPrefix(slotOf, phis, k, slotOf[phis[k].id]);
      StoreCountPrefix(instrs, i, slotOf[phis[k].id]);
    }
    if i < |instrs| && instrs[i].Store? {
      PhiCountPrefix(slotOf, phis, k, instrs[i].slot);
      StoreCountPrefix(instrs, i, instrs[i].slot);
    }
  }

  /** After all pops the stacks are as they were on entry. */
  lemma PopsRestore(slotOf: map<Id, Slot>, st0: StackMap, end: StackMap, st: StackMap, phis: seq<Phi>, instrs: seq<Instr>)
    requires Grown(slotOf, st0, end, phis, instrs) && Shrunk(slotOf, end, st, phis, instrs)
    ensures SameStacks(st0, st)
  {
    forall x ensures StackOf(st0, x) == StackOf(st, x) {
      assert StackOf(st0, x) <= StackOf(end, x) && StackOf(st, x) <= StackOf(end, x);
      assert |StackOf(st0, x)| == |StackOf(st, x)|;
      assert StackOf(st, x) == StackOf(end, x)[..|StackOf(st, x)|];
    }
  }

  // ----- progress -----

  /** subst, start and end as in a Naming, for the blocks in scanned; erased are the
      blocks whose stores are gone; linked are the edges (predecessor, block) that have
      brought their phi pairs. */
  datatype Progress = Progress(
    subst: Subst,
    start: map<Block, Tops>,
    end: map<Block, Tops>,
    scanned: set<Block>,
    erased: set<Block>,
    linked: set<(Block, Block)>)

  function NamingOf(slotOf: map<Id, Slot>, pr: Progress): Naming {
    Naming(slotOf, pr.subst, pr.start, pr.end)
  }

  /** id is defined in a scanned block, by an instruction or a phi. */
  ghost predicate SeenIn(f: Func, scanned: set<Block>, id: Id) {
    exists b, j :: b in scanned && (DefinedAt(f, id, b, j) || PhiAt(f, id, b, j))
  }

  /** The same, or before instruction i of bb. */
  ghost predicate SeenBefore(f: Func, scanned: set<Block>, bb: Block, i: int, id: Id) {
    SeenIn(f, scanned, id) || (exists j :: PhiAt(f, id, bb, j)) || (exists j :: j < i && DefinedAt(f, id, bb, j))
  }

  ghost predicate ResolvedBefore(f: Func, scanned: set<Block>, bb: Block, i: int, v: Val) {
    v.Res? ==> SeenBefore(f, scanned, bb, i, v.id)
  }

  ghost predicate Resolved(f: Func, scanned: set<Block>, v: Val) {
    v.Res? ==> SeenIn(f, scanned, v.id)
  }

  ghost predicate StartsRight(f: Func, m: IdomMap, pr: Progress, b: Block) {
    && b in pr.start
    && if b == f.graph.entry then pr.start[b] == map[]
       else b in m && m[b].Some? && m[b].value in pr.scanned && m[b].value in pr.end && pr.start[b] == pr.end[m[b].value]
  }

  /** The scanned blocks: closed under dominators, and named as far as they go. */
  ghost predicate ScannedOk(f: Func, m: IdomMap, slotOf: map<Id, Slot>, pr: Progress) {
    && (forall b | b in pr.scanned :: b in f.graph.blocks && Reachable(f.graph, b))
    && (forall b, d | b in pr.scanned && Dominates(f.graph, d, b) :: d in pr.scanned)
    && (forall b | b in pr.scanned :: BlockNamed(f, NamingOf(slotOf, pr), b) && StartsRight(f, m, pr, b))
    && (forall b, x | b in pr.scanned && b in pr.end && x in pr.end[b] :: Resolved(f, pr.scanned, pr.end[b][x]))
  }

  ghost predicate SubstOk(f: Func, scanned: set<Block>, s: Subst) {
    forall id | id in s :: Resolved(f, scanned, s[id]) && SeenIn(f, scanned, id) && exists b, i :: LoadAt(f, id, b, i)
  }

  /** The pairs of phi k of b so far. */
  ghost predicate PairsSoFar(f: Func, slotOf: map<Id, Slot>, pr: Progress, b: Block, phi: Phi) {
    && phi.id in slotOf
    && (forall p :: Incoming(phi.pairs, p) ==
                    if (p, b) in pr.linked && p in pr.end && slotOf[phi.id] in pr.end[p] then Some(pr.end[p][slotOf[phi.id]]) else None)
    && (forall k | 0 <= k < |phi.pairs| :: Resolved(f, pr.scanned, phi.pairs[k].0))
  }

  ghost predicate PhisSoFar(f: Func, slotOf: map<Id, Slot>, pr: Progress, b: Block, phis: seq<Phi>) {
    && b in f.phis && |phis| == |f.phis[b]|
    && forall k | 0 <= k < |phis| :: phis[k].id == f.phis[b][k].id && PairsSoFar(f, slotOf, pr, b, phis[k])
  }

  /** The code in the middle of renaming. */
  ghost predicate BodiesAre(f: Func, s: Subst, erased: set<Block>, code: Func) {
    && code.graph == f.graph
    && forall b | b in f.graph.blocks ::
      && b in f.body && b in code.body && b in f.term && b in code.term
      && code.body[b] == (if b in erased then FinalBody(s, f.body[b]) else ApplyBody(s, f.body[b]))
      && code.term[b] == ApplyTerm(s, f.term[b])
  }

  ghost predicate PhisAreSoFar(f: Func, slotOf: map<Id, Slot>, pr: Progress, code: Func) {
    forall b | b in f.graph.blocks :: b in code.phis && PhisSoFar(f, slotOf, pr, b, code.phis[b])
  }

  ghost predicate EdgesLinked(f: Func, pr: Progress) {
    forall p, b :: (p, b) in pr.linked <==> Edge(f.graph, p, b) && p in pr.scanned
  }

  /** The invariant between the visits of two blocks. */
  ghost predicate InProgress(f: Func, m: IdomMap, slotOf: map<Id, Slot>, pr: Progress, code: Func) {
    && ScannedOk(f, m, slotOf, pr) && SubstOk(f, pr.scanned, pr.subst)
    && BodiesAre(f, pr.subst, pr.erased, code) && PhisAreSoFar(f, slotOf, pr, code) && EdgesLinked(f, pr)
  }

  // ----- replacing one more load -----

  function ReplaceIn(code: Func, id: Id, v: Val): Func {
    var s := map[id := v];
    Func(code.graph,
         map b | b in code.phis :: ApplyPhis(s, code.phis[b]),
         map b | b in code.body :: ApplyBody(s, code.body[b]),
         map b | b in code.term :: ApplyTerm(s, code.term[b]))
  }

  ghost predicate Unmentioned(s: Subst, id: Id) {
    id !in s && forall q | q in s :: s[q] != Res(id)
  }

  lemma ApplyTwice(s: Subst, id: Id, v: Val, w: Val)
    requires Unmentioned(s, id)
    ensures Apply(map[id := v], Apply(s, w)) == Apply(s[id := v], w)
  {
  }

  lemma ApplyInstrTwice(s: Subst, id: Id, v: Val, instr: Instr)
    requires Unmentioned(s, id)
    ensures ApplyInstr(map[id := v], ApplyInstr(s, instr)) == ApplyInstr(s[id := v], instr)
  {
    forall w ensures Apply(map[id := v], Apply(s, w)) == Apply(s[id := v], w) {
      ApplyTwice(s, id, v, w);
    }
    if instr.Op? {
      assert ApplyAll(map[id := v], ApplyAll(s, instr.args)) == ApplyAll(s[id := v], instr.args);
    }
  }

  lemma ApplyBodyTwice(s: Subst, id: Id, v: Val, instrs: seq<Instr>)
    requires Unmentioned(s, id)
    ensures ApplyBody(map[id := v], ApplyBody(s, instrs)) == ApplyBody(s[id := v], instrs)
  {
    forall i | 0 <= i < |instrs|
      ensures ApplyBody(map[id := v], ApplyBody(s, instrs))[i] == ApplyBody(s[id := v], instrs)[i]
    {
      ApplyInstrTwice(s, id, v, instrs[i]);
    }
  }

  lemma {:induction false} FinalBodyTwice(s: Subst, id: Id, v: Val, instrs: seq<Instr>)
    requires Unmentioned(s, id)
    ensures ApplyBody(map[id := v], FinalBody(s, instrs)) == FinalBody(s[id := v], instrs)
    decreases |instrs|
  {
    if instrs != [] {
      FinalBodyTwice(s, id, v, instrs[..|instrs| - 1]);
      ApplyInstrTwice(s, id, v, instrs[|instrs| - 1]);
    }
  }

  lemma ReplaceBodies(f: Func, s: Subst, erased: set<Block>, code: Func, id: Id, v: Val)
    requires BodiesAre(f, s, erased, code) && Unmentioned(s, id)
    ensures BodiesAre(f, s[id := v], erased, ReplaceIn(code, id, v))
  {
    forall b | b in f.graph.blocks
      ensures ApplyBody(map[id := v], code.body[b]) ==
              (if b in erased then FinalBody(s[id := v], f.body[b]) else ApplyBody(s[id := v], f.body[b]))
      ensures ApplyTerm(map[id := v], code.term[b]) == ApplyTerm(s[id := v], f.term[b])
    {
      FinalBodyTwice(s, id, v, f.body[b]);
      ApplyBodyTwice(s, id, v, f.body[b]);
      forall w ensures Apply(map[id := v], Apply(s, w)) == Apply(s[id := v], w) {
        ApplyTwice(s, id, v, w);
      }
    }
  }

  /** Phi pairs mention seen names only, so a load that is not seen yet is not among them. */
  lemma ReplacePhis(f: Func, slotOf: map<Id, Slot>, pr: Progress, code: Func, id: Id, v: Val)
    requires PhisAreSoFar(f, slotOf, pr, code) && !SeenIn(f, pr.scanned, id)
    requires BodiesAre(f, pr.subst, pr.erased, code)
    ensures forall b | b in f.graph.blocks :: ReplaceIn(code, id, v).phis[b] == code.phis[b]
  {
    forall b | b in f.graph.blocks ensures ApplyPhis(map[id := v], code.phis[b]) == code.phis[b] {
      var phis := code.phis[b];
      forall k | 0 <= k < |phis| ensures ApplyPairs(map[id := v], phis[k].pairs) == phis[k].pairs {
        assert PairsSoFar(f, slotOf, pr, b, phis[k]);
        forall j | 0 <= j < |phis[k].pairs| ensures Apply(map[id := v], phis[k].pairs[j].0) == phis[k].pairs[j].0 {
          assert Resolved(f, pr.scanned, phis[k].pairs[j].0);
        }
      }
    }
  }

  // ----- scanning a block -----

  /** Before instruction i of bb: its dominators are scanned, tops is what the stacks show. */
  ghost predicate Scanning(f: Func, m: IdomMap, slotOf: map<Id, Slot>, pr: Progress, bb: Block, i: nat, tops: Tops) {
    && bb in f.graph.blocks && Reachable(f.graph, bb) && bb !in pr.scanned
    && bb in f.phis && bb in f.body && i <= |f.body[bb]|
    && (forall d | StrictlyDominates(f.graph, d, bb) :: d in pr.scanned)
    && StartsRight(f, m, pr, bb) && bb in pr.start
    && ScannedOk(f, m, slotOf, pr)
    && (forall id | id in pr.subst ::
          && ResolvedBefore(f, pr.scanned, bb, i, pr.subst[id]) && SeenBefore(f, pr.scanned, bb, i, id)
          && exists b, j :: LoadAt(f, id, b, j))
    && tops == TopsAt(f, NamingOf(slotOf, pr), bb, i)
    && (forall x | x in tops :: ResolvedBefore(f, pr.scanned, bb, i, tops[x]))
    && (forall j | 0 <= j < i :: LoadNamed(f, NamingOf(slotOf, pr), bb, j))
  }

  lemma SeenLater(f: Func, scanned: set<Block>, bb: Block, i: int, id: Id)
    requires SeenBefore(f, scanned, bb, i, id)
    ensures SeenBefore(f, scanned, bb, i + 1, id)
  {
    if j :| j < i && DefinedAt(f, id, bb, j) {
      assert j < i + 1 && DefinedAt(f, id, bb, j);
    }
  }

  /** Operands are seen before they are used. */
  lemma UseSeen(f: Func, scanned: set<Block>, bb: Block, i: int, id: Id)
    requires Available(f, id, bb, i) && forall d | StrictlyDominates(f.graph, d, bb) :: d in scanned
    ensures SeenBefore(f, scanned, bb, i, id)
  {
    var c, j :| DefinedAt(f, id, c, j) && ((c == bb && j < i) || StrictlyDominates(f.graph, c, bb));
    if c != bb {
      assert c in scanned && DefinedAt(f, id, c, j);
    }
  }

  /** What an instruction defines is not seen before it. */
  lemma NotSeenYet(f: Func, slotOf: map<Id, Slot>, scanned: set<Block>, bb: Block, i: int, id: Id)
    requires UniqueIds(f) && PhisFresh(f, slotOf)
    requires DefinedAt(f, id, bb, i) && bb !in scanned
    ensures !SeenBefore(f, scanned, bb, i, id)
  {
    assert !SeenIn(f, scanned, id);
  }

  lemma OperandResolved(f: Func, m: IdomMap, slotOf: map<Id, Slot>, pr: Progress, bb: Block, i: nat, tops: Tops, v: Val)
    requires Scanning(f, m, slotOf, pr, bb, i, tops)
    requires v.Res? ==> Available(f, v.id, bb, i)
    ensures ResolvedBefore(f, pr.scanned, bb, i, Apply(pr.subst, v))
  {
    if v.Res? {
      UseSeen(f, pr.scanned, bb, i, v.id);
    }
  }

  lemma TopsStep(f: Func, nm: Naming, b: Block, i: nat)
    requires b in f.phis && b in f.body && b in nm.start && i < |f.body[b]|
    ensures var instr := f.body[b][i];
            TopsAt(f, nm, b, i + 1) ==
            if instr.Store? then TopsAt(f, nm, b, i)[instr.slot := Apply(nm.subst, instr.rval)] else TopsAt(f, nm, b, i)
  {
    assert f.body[b][..i + 1][..i] == f.body[b][..i];
  }

  /** Going on to the next instruction, with the replacements as they are. */
  lemma ScanAdvance(f: Func, m: IdomMap, slotOf: map<Id, Slot>, pr: Progress, bb: Block, i: nat, tops: Tops, tops': Tops)
    requires Scanning(f, m, slotOf, pr, bb, i, tops) && i < |f.body[bb]|
    requires LoadNamed(f, NamingOf(slotOf, pr), bb, i)
    requires tops' == TopsAt(f, NamingOf(slotOf, pr), bb, i + 1)
    requires forall x | x in tops' :: ResolvedBefore(f, pr.scanned, bb, i, tops'[x])
    ensures Scanning(f, m, slotOf, pr, bb, i + 1, tops')
  {
    hide ScannedOk, StartsRight, LoadNamed, SeenBefore, StrictlyDominates, Reachable, TopsAt;
    forall id | SeenBefore(f, pr.scanned, bb, i, id) ensures SeenBefore(f, pr.scanned, bb, i + 1, id) {
      SeenLater(f, pr.scanned, bb, i, id);
    }
  }

  lemma ScanStore(f: Func, m: IdomMap, slotOf: map<Id, Slot>, pr: Progress, bb: Block, i: nat, tops: Tops)
    requires RenamingInput(f, m, slotOf)
    requires Scanning(f, m, slotOf, pr, bb, i, tops) && i < |f.body[bb]| && f.body[bb][i].Store?
    ensures Scanning(f, m, slotOf, pr, bb, i + 1, tops[f.body[bb][i].slot := Apply(pr.subst, f.body[bb][i].rval)])
  {
    hide ScannedOk, StartsRight, SeenBefore, StrictlyDominates, UniqueIds, PhisFresh, PhisClosed, IdomCorrect, WellFormed;
    var instr := f.body[bb][i];
    TopsStep(f, NamingOf(slotOf, pr), bb, i);
    assert AllAvailable(f, Uses(instr), bb, i) && instr.rval in Uses(instr);
    OperandResolved(f, m, slotOf, pr, bb, i, tops, instr.rval);
    ScanAdvance(f, m, slotOf, pr, bb, i, tops, tops[instr.slot := Apply(pr.subst, instr.rval)]);
  }

  lemma ScanOp(f: Func, m: IdomMap, slotOf: map<Id, Slot>, pr: Progress, bb: Block, i: nat, tops: Tops)
    requires Scanning(f, m, slotOf, pr, bb, i, tops) && i < |f.body[bb]| && f.body[bb][i].Op?
    ensures Scanning(f, m, slotOf, pr, bb, i + 1, tops)
  {
    hide ScannedOk, StartsRight, SeenBefore, StrictlyDominates;
    TopsStep(f, NamingOf(slotOf, pr), bb, i);
    ScanAdvance(f, m, slotOf, pr, bb, i, tops, tops);
  }

  /** A load from a slot with an empty stack stays. */
  lemma ScanLoadMiss(f: Func, m: IdomMap, slotOf: map<Id, Slot>, pr: Progress, bb: Block, i: nat, tops: Tops)
    requires RenamingInput(f, m, slotOf)
    requires Scanning(f, m, slotOf, pr, bb, i, tops) && i < |f.body[bb]| && f.body[bb][i].Load?
    requires f.body[bb][i].slot !in tops
    ensures Scanning(f, m, slotOf, pr, bb, i + 1, tops)
  {
    hide ScannedOk, StartsRight, SeenBefore, StrictlyDominates, PhisClosed, IdomCorrect, WellFormed, UsesDominated;
    TopsStep(f, NamingOf(slotOf, pr), bb, i);
    NotSeenYet(f, slotOf, pr.scanned, bb, i, f.body[bb][i].id);
    ScanAdvance(f, m, slotOf, pr, bb, i, tops, tops);
  }

  // ----- replacing a load while scanning -----

  lemma {:induction false} BodyTopsStable(s: Subst, id: Id, v: Val, t: Tops, instrs: seq<Instr>)
    requires forall i | 0 <= i < |instrs| && instrs[i].Store? :: instrs[i].rval != Res(id)
    ensures BodyTops(s[id := v], t, instrs) == BodyTops(s, t, instrs)
    decreases |instrs|
  {
    if instrs != [] {
      BodyTopsStable(s, id, v, t, instrs[..|instrs| - 1]);
    }
  }

  /** Stack tops do not change when a name is replaced that is not used up to there. */
  lemma TopsStable(f: Func, nm: Naming, b: Block, i: nat, id: Id, v: Val)
    requires b in f.phis && b in f.body && b in nm.start && i <= |f.body[b]|
    requires forall j | 0 <= j < i && f.body[b][j].Store? :: f.body[b][j].rval != Res(id)
    ensures TopsAt(f, nm.(subst := nm.subst[id := v]), b, i) == TopsAt(f, nm, b, i)
  {
    var instrs := f.body[b][..i];
    forall j | 0 <= j < |instrs| && instrs[j].Store? ensures instrs[j].rval != Res(id) {
      assert instrs[j] == f.body[b][j];
    }
    BodyTopsStable(nm.subst, id, v, PhiTops(nm.slotOf, nm.start[b], f.phis[b]), instrs);
  }

  /** What is available, or defined, in scanned territory is seen. */
  lemma SeenWhereUsed(f: Func, scanned: set<Block>, bb: Block, i: int, id: Id, b: Block, j: int)
    requires b in scanned || (b == bb && j < i)
    requires forall d | StrictlyDominates(f.graph, d, b) :: d in scanned
    ensures Available(f, id, b, j) || DefinedAt(f, id, b, j) ==> SeenBefore(f, scanned, bb, i, id)
  {
    if Available(f, id, b, j) {
      var c, k :| DefinedAt(f, id, c, k) && ((c == b && k < j) || StrictlyDominates(f.graph, c, b));
      assert c in scanned || (c == bb && k < i);
    }
  }

  /** A block whose instructions use and define only what is seen does not involve a name that is not. */
  lemma StoresUnrelated(f: Func, m: IdomMap, slotOf: map<Id, Slot>, pr: Progress, bb: Block, i: nat, id: Id, b: Block, n: nat)
    requires RenamingInput(f, m, slotOf) && ScannedOk(f, m, slotOf, pr)
    requires !SeenBefore(f, pr.scanned, bb, i, id)
    requires b in f.graph.blocks && Reachable(f.graph, b) && n <= |f.body[b]|
    requires b in pr.scanned || (b == bb && n <= i)
    requires forall d | StrictlyDominates(f.graph, d, b) :: d in pr.scanned
    ensures forall j | 0 <= j < n && f.body[b][j].Store? :: f.body[b][j].rval != Res(id)
    ensures forall j | 0 <= j < n :: Defines(f.body[b][j]) != Some(id)
  {
    hide UniqueIds, PhisFresh, PhisClosed, IdomCorrect, ScannedOk;
    forall j | 0 <= j < n
      ensures f.body[b][j].Store? ==> f.body[b][j].rval != Res(id)
      ensures Defines(f.body[b][j]) != Some(id)
    {
      var instr := f.body[b][j];
      assert AllAvailable(f, Uses(instr), b, j);
      if instr.Store? {
        assert instr.rval in Uses(instr);
      }
      SeenWhereUsed(f, pr.scanned, bb, i, id, b, j);
    }
  }

  lemma LoadNamedStable(f: Func, nm: Naming, b: Block, i: nat, id: Id, v: Val)
    requires b in f.phis && b in f.body && b in nm.start && i < |f.body[b]|
    requires LoadNamed(f, nm, b, i) && Defines(f.body[b][i]) != Some(id)
    requires forall j | 0 <= j < i && f.body[b][j].Store? :: f.body[b][j].rval != Res(id)
    ensures LoadNamed(f, nm.(subst := nm.subst[id := v]), b, i)
  {
    TopsStable(f, nm, b, i, id, v);
  }

  lemma ScannedStable(f: Func, m: IdomMap, slotOf: map<Id, Slot>, pr: Progress, bb: Block, i: nat, id: Id, v: Val)
    requires RenamingInput(f, m, slotOf) && ScannedOk(f, m, slotOf, pr)
    requires !SeenBefore(f, pr.scanned, bb, i, id)
    ensures ScannedOk(f, m, slotOf, pr.(subst := pr.subst[id := v]))
  {
    hide RenamingInput, SeenBefore, Resolved;
    var nm, nm' := NamingOf(slotOf, pr), NamingOf(slotOf, pr.(subst := pr.subst[id := v]));
    assert nm' == nm.(subst := nm.subst[id := v]);
    forall b | b in pr.scanned ensures BlockNamed(f, nm', b) && StartsRight(f, m, pr.(subst := pr.subst[id := v]), b) {
      assert BlockNamed(f, nm, b);
      forall d | StrictlyDominates(f.graph, d, b) ensures d in pr.scanned {
      }
      StoresUnrelated(f, m, slotOf, pr, bb, i, id, b, |f.body[b]|);
      TopsStable(f, nm, b, |f.body[b]|, id, v);
      forall j | 0 <= j < |f.body[b]| ensures LoadNamed(f, nm', b, j) {
        LoadNamedStable(f, nm, b, j, id, v);
      }
    }
  }

  /** A load from a slot with a value on its stack is replaced everywhere. */
  lemma ScanLoadHit(f: Func, m: IdomMap, slotOf: map<Id, Slot>, pr: Progress, bb: Block, i: nat, tops: Tops)
    requires RenamingInput(f, m, slotOf)
    requires Scanning(f, m, slotOf, pr, bb, i, tops) && i < |f.body[bb]| && f.body[bb][i].Load?
    requires f.body[bb][i].slot in tops
    ensures var id := f.body[bb][i].id;
            && Unmentioned(pr.subst, id) && !SeenIn(f, pr.scanned, id)
            && Scanning(f, m, slotOf, pr.(subst := pr.subst[id := tops[f.body[bb][i].slot]]), bb, i + 1, tops)
  {
    hide UsesDominated, PhisClosed, IdomCorrect, WellFormed, ScannedOk, StrictlyDominates, Reachable;
    var id, v := f.body[bb][i].id, tops[f.body[bb][i].slot];
    var pr' := pr.(subst := pr.subst[id := v]);
    var nm, nm' := NamingOf(slotOf, pr), NamingOf(slotOf, pr');
    assert nm' == nm.(subst := nm.subst[id := v]);
    assert DefinedAt(f, id, bb, i);
    NotSeenYet(f, slotOf, pr.scanned, bb, i, id);
    ScannedStable(f, m, slotOf, pr, bb, i, id, v);
    StoresUnrelated(f, m, slotOf, pr, bb, i, id, bb, i);
    TopsStable(f, nm, bb, i, id, v);
    TopsStep(f, nm', bb, i);
    ScanLoadHitNames(f, nm, nm', bb, i, id, v);
    forall q | q in pr'.subst
      ensures ResolvedBefore(f, pr.scanned, bb, i + 1, pr'.subst[q]) && SeenBefore(f, pr.scanned, bb, i + 1, q)
      ensures exists b, j :: LoadAt(f, q, b, j)
    {
      if q == id {
        assert i < i + 1 && DefinedAt(f, id, bb, i) && LoadAt(f, id, bb, i);
      }
      ResolvedLater(f, pr.scanned, bb, i, pr'.subst[q]);
      if q != id {
        SeenLater(f, pr.scanned, bb, i, q);
      }
    }
    forall x | x in tops ensures ResolvedBefore(f, pr.scanned, bb, i + 1, tops[x]) {
      ResolvedLater(f, pr.scanned, bb, i, tops[x]);
    }
  }

  lemma ResolvedLater(f: Func, scanned: set<Block>, bb: Block, i: int, v: Val)
    requires ResolvedBefore(f, scanned, bb, i, v)
    ensures ResolvedBefore(f, scanned, bb, i + 1, v)
  {
    if v.Res? {
      SeenLater(f, scanned, bb, i, v.id);
    }
  }

  lemma ScanLoadHitNames(f: Func, nm: Naming, nm': Naming, bb: Block, i: nat, id: Id, v: Val)
    requires bb in f.phis && bb in f.body && bb in nm.start && i < |f.body[bb]|
    requires f.body[bb][i].Load? && f.body[bb][i].id == id
    requires forall j | 0 <= j < i :: LoadNamed(f, nm, bb, j) && Defines(f.body[bb][j]) != Some(id)
    requires forall j | 0 <= j < i && f.body[bb][j].Store? :: f.body[bb][j].rval != Res(id)
    requires var t := TopsAt(f, nm, bb, i); f.body[bb][i].slot in t && v == t[f.body[bb][i].slot]
    requires nm' == nm.(subst := nm.subst[id := v])
    ensures forall j | 0 <= j < i + 1 :: LoadNamed(f, nm', bb, j)
  {
    forall j | 0 <= j < i + 1 ensures LoadNamed(f, nm', bb, j) {
      if j < i {
        LoadNamedStable(f, nm, bb, j, id, v);
      } else {
        TopsStable(f, nm, bb, i, id, v);
      }
    }
  }

  // ----- the block's ends: before the first instruction, and after the last -----

  lemma {:induction false} PhiTopsResolved(f: Func, scanned: set<Block>, slotOf: map<Id, Slot>, t: Tops, bb: Block, k: nat)
    requires bb in f.graph.blocks && bb in f.phis && k <= |f.phis[bb]|
    requires forall x | x in t :: Resolved(f, scanned, t[x])
    ensures forall x | x in PhiTops(slotOf, t, f.phis[bb][..k]) ::
              ResolvedBefore(f, scanned, bb, 0, PhiTops(slotOf, t, f.phis[bb][..k])[x])
    decreases k
  {
    if k > 0 {
      PhiTopsResolved(f, scanned, slotOf, t, bb, k - 1);
      assert f.phis[bb][..k][..k - 1] == f.phis[bb][..k - 1];
      assert PhiAt(f, f.phis[bb][k - 1].id, bb, k - 1);
    } else {
      assert f.phis[bb][..k] == [];
    }
  }

  lemma StartResolved(f: Func, m: IdomMap, slotOf: map<Id, Slot>, pr: Progress, bb: Block, tops: Tops)
    requires ScannedOk(f, m, slotOf, pr) && StartsRight(f, m, pr.(start := pr.start[bb := tops]), bb)
    ensures forall x | x in tops :: Resolved(f, pr.scanned, tops[x])
  {
    if bb != f.graph.entry {
      var a := m[bb].value;
      assert tops == pr.end[a];
    }
  }

  lemma StartKeepsScanned(f: Func, m: IdomMap, slotOf: map<Id, Slot>, pr: Progress, bb: Block, tops: Tops)
    requires ScannedOk(f, m, slotOf, pr) && bb !in pr.scanned
    ensures ScannedOk(f, m, slotOf, pr.(start := pr.start[bb := tops]))
  {
    hide Resolved;
    var pr' := pr.(start := pr.start[bb := tops]);
    forall b | b in pr.scanned ensures BlockNamed(f, NamingOf(slotOf, pr'), b) && StartsRight(f, m, pr', b) {
      assert BlockNamed(f, NamingOf(slotOf, pr), b) && StartsRight(f, m, pr, b);
      forall j | 0 <= j < |f.body[b]| ensures LoadNamed(f, NamingOf(slotOf, pr'), b, j) {
        assert LoadNamed(f, NamingOf(slotOf, pr), b, j);
      }
    }
  }

  lemma StartKeepsPhis(f: Func, slotOf: map<Id, Slot>, pr: Progress, code: Func, bb: Block, tops: Tops)
    requires PhisAreSoFar(f, slotOf, pr, code)
    ensures PhisAreSoFar(f, slotOf, pr.(start := pr.start[bb := tops]), code)
  {
    var pr' := pr.(start := pr.start[bb := tops]);
    forall b | b in f.graph.blocks ensures PhisSoFar(f, slotOf, pr', b, code.phis[b]) {
      assert PhisSoFar(f, slotOf, pr, b, code.phis[b]);
      forall k | 0 <= k < |code.phis[b]| ensures PairsSoFar(f, slotOf, pr', b, code.phis[b][k]) {
        PairsKeep(f, slotOf, pr, pr', b, code.phis[b][k]);
      }
    }
  }

  /** Entering a block: its stacks begin where its immediate dominator's ended. */
  lemma ScanStart(f: Func, m: IdomMap, slotOf: map<Id, Slot>, pr: Progress, code: Func, bb: Block, tops: Tops)
    requires RenamingInput(f, m, slotOf) && InProgress(f, m, slotOf, pr, code)
    requires bb in f.graph.blocks && Reachable(f.graph, bb) && bb !in pr.scanned
    requires forall d | StrictlyDominates(f.graph, d, bb) :: d in pr.scanned
    requires StartsRight(f, m, pr.(start := pr.start[bb := tops]), bb)
    ensures var pr' := pr.(start := pr.start[bb := tops]);
            && bb in f.phis && Scanning(f, m, slotOf, pr', bb, 0, PhiTops(slotOf, tops, f.phis[bb]))
            && BodiesAre(f, pr'.subst, pr'.erased, code) && PhisAreSoFar(f, slotOf, pr', code) && EdgesLinked(f, pr')
  {
    hide UniqueIds, UsesDominated, PhisFresh, PhisClosed, IdomCorrect, WellFormed, ScannedOk, StartsRight, BodiesAre, PhisAreSoFar, SeenIn;
    StartResolved(f, m, slotOf, pr, bb, tops);
    StartKeepsScanned(f, m, slotOf, pr, bb, tops);
    StartKeepsPhis(f, slotOf, pr, code, bb, tops);
    assert f.body[bb][..0] == [];
    assert f.phis[bb][..|f.phis[bb]|] == f.phis[bb];
    PhiTopsResolved(f, pr.scanned, slotOf, tops, bb, |f.phis[bb]|);
    forall id | SeenIn(f, pr.scanned, id) ensures SeenBefore(f, pr.scanned, bb, 0, id) {
    }
  }

  lemma SeenWhole(f: Func, scanned: set<Block>, bb: Block, id: Id)
    requires bb in f.body
    ensures SeenBefore(f, scanned, bb, |f.body[bb]|, id) ==> SeenIn(f, scanned + {bb}, id)
    ensures SeenIn(f, scanned, id) ==> SeenIn(f, scanned + {bb}, id)
  {
    if SeenIn(f, scanned, id) {
      var b, j :| b in scanned && (DefinedAt(f, id, b, j) || PhiAt(f, id, b, j));
      assert b in scanned + {bb};
    } else if SeenBefore(f, scanned, bb, |f.body[bb]|, id) {
      assert bb in scanned + {bb};
    }
  }

  /** All but the links of bb. */
  ghost predicate EdgesLinkedTo(f: Func, pr: Progress, bb: Block, succs: seq<Block>) {
    forall p, b :: (p, b) in pr.linked <==> (Edge(f.graph, p, b) && p in pr.scanned && p != bb) || (p == bb && b in succs)
  }

  /** The invariant while bb links its successors. */
  ghost predicate Linking(f: Func, m: IdomMap, slotOf: map<Id, Slot>, pr: Progress, code: Func, bb: Block, succs: seq<Block>) {
    && ScannedOk(f, m, slotOf, pr) && SubstOk(f, pr.scanned, pr.subst)
    && BodiesAre(f, pr.subst, pr.erased, code) && PhisAreSoFar(f, slotOf, pr, code)
    && bb in pr.scanned && bb in pr.end && EdgesLinkedTo(f, pr, bb, succs)
  }

  lemma ScanEndNamed(f: Func, m: IdomMap, slotOf: map<Id, Slot>, pr: Progress, bb: Block, tops: Tops)
    requires bb in f.body && Scanning(f, m, slotOf, pr, bb, |f.body[bb]|, tops)
    ensures var pr' := pr.(end := pr.end[bb := tops], scanned := pr.scanned + {bb});
            forall b | b in pr'.scanned :: BlockNamed(f, NamingOf(slotOf, pr'), b) && StartsRight(f, m, pr', b)
  {
    hide SeenIn, SeenBefore, Resolved, ResolvedBefore, StrictlyDominates, Dominates, Reachable;
    var pr' := pr.(end := pr.end[bb := tops], scanned := pr.scanned + {bb});
    forall b | b in pr'.scanned ensures BlockNamed(f, NamingOf(slotOf, pr'), b) && StartsRight(f, m, pr', b) {
      if b != bb {
        assert BlockNamed(f, NamingOf(slotOf, pr), b) && StartsRight(f, m, pr, b);
      }
      forall j | 0 <= j < |f.body[b]| ensures LoadNamed(f, NamingOf(slotOf, pr'), b, j) {
        assert LoadNamed(f, NamingOf(slotOf, pr), b, j);
      }
    }
  }

  lemma ScanEndBlocks(f: Func, m: IdomMap, slotOf: map<Id, Slot>, pr: Progress, bb: Block, tops: Tops)
    requires bb in f.body && Scanning(f, m, slotOf, pr, bb, |f.body[bb]|, tops)
    ensures var pr' := pr.(end := pr.end[bb := tops], scanned := pr.scanned + {bb});
            ScannedOk(f, m, slotOf, pr') && SubstOk(f, pr'.scanned, pr'.subst)
  {
    hide SeenIn, SeenBefore, BlockNamed, StartsRight, LoadNamed;
    var pr' := pr.(end := pr.end[bb := tops], scanned := pr.scanned + {bb});
    forall id ensures SeenBefore(f, pr.scanned, bb, |f.body[bb]|, id) ==> SeenIn(f, pr'.scanned, id)
              ensures SeenIn(f, pr.scanned, id) ==> SeenIn(f, pr'.scanned, id)
    {
      SeenWhole(f, pr.scanned, bb, id);
    }
    ScanEndNamed(f, m, slotOf, pr, bb, tops);
    forall b, d | b in pr'.scanned && Dominates(f.graph, d, b) ensures d in pr'.scanned {
      if b == bb && d != bb {
        assert StrictlyDominates(f.graph, d, bb);
      }
    }
  }

  lemma ScanEnd(f: Func, m: IdomMap, slotOf: map<Id, Slot>, pr: Progress, code: Func, bb: Block, tops: Tops)
    requires RenamingInput(f, m, slotOf) && bb in f.body && Scanning(f, m, slotOf, pr, bb, |f.body[bb]|, tops)
    requires BodiesAre(f, pr.subst, pr.erased, code) && PhisAreSoFar(f, slotOf, pr, code) && EdgesLinked(f, pr)
    ensures Linking(f, m, slotOf, pr.(end := pr.end[bb := tops], scanned := pr.scanned + {bb}), code, bb, [])
  {
    hide RenamingInput, ScannedOk, SubstOk, SeenIn, Edge;
    var pr' := pr.(end := pr.end[bb := tops], scanned := pr.scanned + {bb});
    ScanEndBlocks(f, m, slotOf, pr, bb, tops);
    forall b | b in f.graph.blocks ensures PhisSoFar(f, slotOf, pr', b, code.phis[b]) {
      assert PhisSoFar(f, slotOf, pr, b, code.phis[b]);
      forall k | 0 <= k < |code.phis[b]| ensures PairsSoFar(f, slotOf, pr', b, code.phis[b][k]) {
        PairsStay(f, slotOf, pr, bb, tops, b, code.phis[b][k]);
      }
    }
  }

  lemma PairsStay(f: Func, slotOf: map<Id, Slot>, pr: Progress, bb: Block, tops: Tops, b: Block, phi: Phi)
    requires PairsSoFar(f, slotOf, pr, b, phi) && EdgesLinked(f, pr) && bb !in pr.scanned && bb in f.body
    ensures PairsSoFar(f, slotOf, pr.(end := pr.end[bb := tops], scanned := pr.scanned + {bb}), b, phi)
  {
    forall k | 0 <= k < |phi.pairs| ensures Resolved(f, pr.scanned + {bb}, phi.pairs[k].0) {
      assert Resolved(f, pr.scanned, phi.pairs[k].0);
      if phi.pairs[k].0.Res? {
        SeenWhole(f, pr.scanned, bb, phi.pairs[k].0.id);
      }
    }
  }

  // ----- linking a successor -----

  /** A phi with the pair that block from brings, if its slot has a value there. */
  function LinkPhi(slotOf: map<Id, Slot>, tops: Tops, phi: Phi, from: Block): Phi {
    if phi.id in slotOf && slotOf[phi.id] in tops then Phi(phi.id, phi.pairs + [(tops[slotOf[phi.id]], from)]) else phi
  }

  lemma {:induction false} IncomingAppend(pairs: seq<(Val, Block)>, v: Val, q: Block, p: Block)
    ensures Incoming(pairs + [(v, q)], p) ==
            if Incoming(pairs, p).Some? then Incoming(pairs, p) else if p == q then Some(v) else None
    decreases |pairs|
  {
    if pairs == [] {
      assert pairs + [(v, q)] == [(v, q)];
    } else {
      assert (pairs + [(v, q)])[1..] == pairs[1..] + [(v, q)];
      IncomingAppend(pairs[1..], v, q, p);
    }
  }

  lemma LinkPairs(f: Func, m: IdomMap, slotOf: map<Id, Slot>, pr: Progress, bb: Block, succ: Block, phi: Phi)
    requires PairsSoFar(f, slotOf, pr, succ, phi) && ScannedOk(f, m, slotOf, pr) && bb in pr.scanned && bb in pr.end
    ensures PairsSoFar(f, slotOf, pr.(linked := pr.linked + {(bb, succ)}), succ, LinkPhi(slotOf, pr.end[bb], phi, bb))
  {
    hide SeenIn, BlockNamed;
    var phi' := LinkPhi(slotOf, pr.end[bb], phi, bb);
    var x := slotOf[phi.id];
    forall p ensures Incoming(phi'.pairs, p) ==
                     if (p, succ) in pr.linked + {(bb, succ)} && p in pr.end && x in pr.end[p] then Some(pr.end[p][x]) else None
    {
      if x in pr.end[bb] {
        IncomingAppend(phi.pairs, pr.end[bb][x], bb, p);
      }
    }
  }

  lemma LinkOther(f: Func, slotOf: map<Id, Slot>, pr: Progress, bb: Block, succ: Block, b: Block, phis: seq<Phi>)
    requires PhisSoFar(f, slotOf, pr, b, phis) && b != succ
    ensures PhisSoFar(f, slotOf, pr.(linked := pr.linked + {(bb, succ)}), b, phis)
  {
    forall k | 0 <= k < |phis| ensures PairsSoFar(f, slotOf, pr.(linked := pr.linked + {(bb, succ)}), b, phis[k]) {
      assert PairsSoFar(f, slotOf, pr, b, phis[k]);
    }
  }

  /** Linking one successor: every phi of succ gets bb's pair. */
  lemma LinkSuccessor(f: Func, m: IdomMap, slotOf: map<Id, Slot>, pr: Progress, code: Func, bb: Block, succs: seq<Block>,
                      succ: Block, phis: seq<Phi>)
    requires Linking(f, m, slotOf, pr, code, bb, succs) && succ in f.graph.blocks
    requires |phis| == |code.phis[succ]|
    requires forall k | 0 <= k < |phis| :: phis[k] == LinkPhi(slotOf, pr.end[bb], code.phis[succ][k], bb)
    ensures Linking(f, m, slotOf, pr.(linked := pr.linked + {(bb, succ)}), code.(phis := code.phis[succ := phis]), bb, succs + [succ])
  {
    hide BlockNamed, StartsRight, Resolved, BodiesAre, PairsSoFar;
    var pr' := pr.(linked := pr.linked + {(bb, succ)});
    assert BodiesAre(f, pr'.subst, pr'.erased, code.(phis := code.phis[succ := phis])) by {
      BodiesOnly(f, pr.subst, pr.erased, code, code.(phis := code.phis[succ := phis]));
    }
    forall b | b in f.graph.blocks ensures PhisSoFar(f, slotOf, pr', b, code.phis[succ := phis][b]) {
      assert PhisSoFar(f, slotOf, pr, b, code.phis[b]);
      if b == succ {
        forall k | 0 <= k < |phis| ensures phis[k].id == f.phis[b][k].id && PairsSoFar(f, slotOf, pr', b, phis[k]) {
          LinkPairs(f, m, slotOf, pr, bb, succ, code.phis[succ][k]);
        }
      } else {
        LinkOther(f, slotOf, pr, bb, succ, b, code.phis[b]);
      }
    }
    assert ScannedOk(f, m, slotOf, pr') by {
      ScannedOnly(f, m, slotOf, pr, pr');
    }
  }

  lemma BodiesOnly(f: Func, s: Subst, erased: set<Block>, code: Func, code': Func)
    requires BodiesAre(f, s, erased, code)
    requires code'.graph == code.graph && code'.body == code.body && code'.term == code.term
    ensures BodiesAre(f, s, erased, code')
  {
  }

  lemma ScannedOnly(f: Func, m: IdomMap, slotOf: map<Id, Slot>, pr: Progress, pr': Progress)
    requires ScannedOk(f, m, slotOf, pr)
    requires pr' == pr.(linked := pr'.linked, erased := pr'.erased)
    ensures ScannedOk(f, m, slotOf, pr')
  {
    assert NamingOf(slotOf, pr') == NamingOf(slotOf, pr);
    forall b | b in pr'.scanned ensures StartsRight(f, m, pr', b) {
      assert StartsRight(f, m, pr, b);
    }
  }

  /** All successors are linked. */
  lemma LinkingDone(f: Func, m: IdomMap, slotOf: map<Id, Slot>, pr: Progress, code: Func, bb: Block)
    requires bb in f.graph.blocks && bb in f.graph.succ
    requires Linking(f, m, slotOf, pr, code, bb, f.graph.succ[bb])
    ensures InProgress(f, m, slotOf, pr, code)
  {
    hide ScannedOk, SubstOk, BodiesAre, PhisAreSoFar;
  }

  /** Erasing the stores of a scanned block. */
  lemma EraseStores(f: Func, m: IdomMap, slotOf: map<Id, Slot>, pr: Progress, code: Func, bb: Block)
    requires InProgress(f, m, slotOf, pr, code) && bb in f.graph.blocks && bb !in pr.erased
    ensures bb in code.body
    ensures InProgress(f, m, slotOf, pr.(erased := pr.erased + {bb}), code.(body := code.body[bb := DropStores(code.body[bb])]))
  {
    hide BlockNamed, Resolved, SubstOk, PairsSoFar;
    DropAfterApply(pr.subst, f.body[bb]);
    var pr', code' := pr.(erased := pr.erased + {bb}), code.(body := code.body[bb := DropStores(code.body[bb])]);
    ScannedOnly(f, m, slotOf, pr, pr');
    forall b | b in f.graph.blocks ensures b in code'.phis && PhisSoFar(f, slotOf, pr', b, code'.phis[b]) {
      assert PhisSoFar(f, slotOf, pr, b, code.phis[b]);
      forall k | 0 <= k < |code.phis[b]| ensures PairsSoFar(f, slotOf, pr', b, code.phis[b][k]) {
        PairsKeep(f, slotOf, pr, pr', b, code.phis[b][k]);
      }
    }
  }

  lemma PairsKeep(f: Func, slotOf: map<Id, Slot>, pr: Progress, pr': Progress, b: Block, phi: Phi)
    requires PairsSoFar(f, slotOf, pr, b, phi)
    requires pr'.linked == pr.linked && pr'.end == pr.end && pr'.scanned == pr.scanned
    ensures PairsSoFar(f, slotOf, pr', b, phi)
  {
  }

  // ----- beginning and end of the whole renaming -----

  lemma ProgressStart(f: Func, m: IdomMap, slotOf: map<Id, Slot>)
    requires RenamingInput(f, m, slotOf)
    ensures InProgress(f, m, slotOf, Progress(map[], map[], map[], {}, {}, {}), f)
  {
    hide UniqueIds, UsesDominated, PhisClosed, IdomCorrect, WellFormed;
    var pr := Progress(map[], map[], map[], {}, {}, {});
    forall b | b in f.graph.blocks ensures PhisSoFar(f, slotOf, pr, b, f.phis[b]) {
      forall k | 0 <= k < |f.phis[b]| ensures PairsSoFar(f, slotOf, pr, b, f.phis[b][k]) {
        assert PhiAt(f, f.phis[b][k].id, b, k);
      }
    }
    forall b | b in f.graph.blocks ensures ApplyBody(map[], f.body[b]) == f.body[b] && ApplyTerm(map[], f.term[b]) == f.term[b] {
      forall i | 0 <= i < |f.body[b]| ensures ApplyInstr(map[], f.body[b][i]) == f.body[b][i] {
        if f.body[b][i].Op? {
          assert ApplyAll(map[], f.body[b][i].args) == f.body[b][i].args;
        }
      }
    }
  }

  /** When all reachable blocks are scanned and erased, the code is the renamed function. */
  lemma ProgressEnd(f: Func, m: IdomMap, slotOf: map<Id, Slot>, pr: Progress, code: Func)
    requires RenamingInput(f, m, slotOf) && InProgress(f, m, slotOf, pr, code)
    requires forall b | b in f.graph.blocks && Reachable(f.graph, b) :: b in pr.scanned && b in pr.erased
    ensures Named(f, m, NamingOf(slotOf, pr)) && Renamed(f, code, NamingOf(slotOf, pr))
  {
    hide UniqueIds, UsesDominated, PhisClosed, PhisFresh, IdomCorrect;
    var nm := NamingOf(slotOf, pr);
    EntryReachable(f.graph);
    forall b | b in f.graph.blocks && Reachable(f.graph, b) ensures StartsRight(f, m, pr, b) {
      assert b in pr.scanned;
    }
    forall b | b in f.graph.blocks && Reachable(f.graph, b) ensures PhisSoFar(f, slotOf, pr, b, code.phis[b]) {
    }
    forall b, k | b in f.graph.blocks && Reachable(f.graph, b) && 0 <= k < |code.phis[b]| ensures PairsMatch(f, nm, b, code.phis[b][k]) {
      PairsFinal(f, m, slotOf, pr, b, code.phis[b][k]);
    }
  }

  lemma PairsFinal(f: Func, m: IdomMap, slotOf: map<Id, Slot>, pr: Progress, b: Block, phi: Phi)
    requires ScannedOk(f, m, slotOf, pr) && EdgesLinked(f, pr) && PairsSoFar(f, slotOf, pr, b, phi)
    requires forall b | b in f.graph.blocks && Reachable(f.graph, b) :: b in pr.scanned
    ensures PairsMatch(f, NamingOf(slotOf, pr), b, phi)
  {
    forall p | Edge(f.graph, p, b) && Reachable(f.graph, p) ensures (p, b) in pr.linked && p in pr.end {
      assert BlockNamed(f, NamingOf(slotOf, pr), p);
    }
  }
}
