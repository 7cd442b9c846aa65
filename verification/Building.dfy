/** Code under construction: what stays fixed while it grows, running it one
    instruction at a time, and what a finished piece of it means. */
module Building {
  import opened Common
  import opened Cfg
  import opened Ir

  /** The blocks so far are 0 up to count; cur is the block that instructions go to.
      avail says which names are defined on every way to a block. */
  datatype Code = Code(
    count: nat,
    body: map<Block, seq<Instr>>,
    term: map<Block, Term>,
    cur: Block,
    nextId: Id,
    nextSlot: Slot,
    avail: map<Block, set<Id>>)

  /** Every block has a body; blocks without a terminator are still open. */
  ghost predicate CodeOk(c: Code) {
    && 0 <= c.cur < c.count
    && (forall b :: b in c.body <==> 0 <= b < c.count)
    && (forall b :: b in c.avail <==> 0 <= b < c.count)
    && (forall b | b in c.term :: 0 <= b < c.count)
    && (forall b, t | b in c.term && t in Targets(c.term[b]) :: 0 < t < c.count)
  }

  /** The names that are defined where the next instruction of block b goes. */
  ghost function DefinedIn(instrs: seq<Instr>): set<Id> {
    set i | i in instrs && Defines(i).Some? :: Defines(i).value
  }

  ghost function AvailAt(c: Code, b: Block, i: nat): set<Id>
    requires b in c.body && b in c.avail && i <= |c.body[b]|
  {
    c.avail[b] + DefinedIn(c.body[b][..i])
  }

  ghost function AvailNow(c: Code): set<Id>
    requires CodeOk(c)
  {
    AvailAt(c, c.cur, |c.body[c.cur]|)
  }

  ghost predicate UsesAvail(s: set<Id>, vs: seq<Val>) {
    forall v | v in vs && v.Res? :: v.id in s
  }

  ghost predicate IdsOnce(c: Code) {
    && (forall b, i | b in c.body && 0 <= i < |c.body[b]| && Defines(c.body[b][i]).Some? :: 0 <= Defines(c.body[b][i]).value < c.nextId)
    && (forall b, i, d, j | b in c.body && d in c.body && 0 <= i < |c.body[b]| && 0 <= j < |c.body[d]|
          && Defines(c.body[b][i]).Some? && Defines(c.body[b][i]) == Defines(c.body[d][j]) :: b == d && i == j)
  }

  ghost predicate UsesOk(c: Code)
    requires CodeOk(c)
  {
    forall b, i | b in c.body && 0 <= i < |c.body[b]| :: UsesAvail(AvailAt(c, b, i), Uses(c.body[b][i]))
  }

  ghost predicate EdgesOk(c: Code)
    requires CodeOk(c)
  {
    forall b | b in c.term ::
      && UsesAvail(AvailAt(c, b, |c.body[b]|), TermUses(c.term[b]))
      && forall t | t in Targets(c.term[b]) :: c.avail[t] <= AvailAt(c, b, |c.body[b]|)
  }

  /** Identities are used once, operands are available, and availability passes along edges. */
  ghost predicate Certified(c: Code)
    requires CodeOk(c)
  {
    c.avail[0] == {} && IdsOnce(c) && UsesOk(c) && EdgesOk(c)
  }

  /** A visit changes the block it starts in and new blocks; its branches go to new blocks. */
  ghost predicate Grew(c: Code, c': Code) {
    && c.count <= c'.count && c.nextId <= c'.nextId && c.nextSlot <= c'.nextSlot
    && c.cur in c.body && c.cur in c'.body && c.body[c.cur] <= c'.body[c.cur]
    && (forall b | 0 <= b < c.count && b != c.cur :: b in c.body && b in c'.body && c'.body[b] == c.body[b])
    && (forall b | 0 <= b < c.count && (b != c.cur || b in c.term) ::
          (b in c.term <==> b in c'.term) && (b in c.term ==> c'.term[b] == c.term[b] && b in c'.body && b in c.body && c'.body[b] == c.body[b]))
    && (forall b | 0 <= b < c.count :: b in c.avail && b in c'.avail && c'.avail[b] == c.avail[b])
    && (forall b, t | b in c'.term && b !in c.term && t in Targets(c'.term[b]) :: c.count <= t < c'.count)
    && (c'.cur == c.cur || c'.cur >= c.count)
  }

  lemma GrewRefl(c: Code)
    requires CodeOk(c)
    ensures Grew(c, c)
  {
  }

  lemma GrewTrans(c: Code, d: Code, e: Code)
    requires CodeOk(c) && CodeOk(d) && CodeOk(e) && Grew(c, d) && Grew(d, e)
    ensures Grew(c, e)
  {
  }

  // ----- running the finished code -----

  /** A finished function, and where it runs. */
  datatype World = World(f: Func, sem: Sem, args: seq<int>)

  /** f contains all that c has. */
  ghost predicate FinalOf(c: Code, f: Func) {
    && (forall b | b in c.body :: b in f.body && c.body[b] <= f.body[b])
    && (forall b | b in c.term :: b in c.body && b in f.body && f.body[b] == c.body[b] && b in f.term && f.term[b] == c.term[b])
  }

  lemma FinalBack(c: Code, c': Code, f: Func)
    requires CodeOk(c) && CodeOk(c') && Grew(c, c') && FinalOf(c', f)
    ensures FinalOf(c, f)
  {
    forall b | b in c.body ensures b in f.body && c.body[b] <= f.body[b] {
      assert b in c'.body && c.body[b] <= c'.body[b];
    }
  }

  /** In the middle of a block, or returned. */
  datatype Spot = Mid(b: Block, i: nat, r: Regs) | End(val: Option<int>, r: Regs)

  ghost function Micro(w: World, m: Spot): Spot {
    if m.End? || m.b !in w.f.body then m
    else if m.i < |w.f.body[m.b]| then Mid(m.b, m.i + 1, Step(w.sem, w.args, m.r, w.f.body[m.b][m.i]))
    else if m.b !in w.f.term then m
    else
      match w.f.term[m.b]
      case Br(t) => Mid(t, 0, m.r)
      case CondBr(v, t, u) => Mid(if Eval(w.args, m.r.env, v) != 0 then t else u, 0, m.r)
      case Ret(v) => End(if v.Some? then Some(Eval(w.args, m.r.env, v.value)) else None, m.r)
  }

  ghost function MicroRun(w: World, m: Spot, n: nat): Spot {
    if n == 0 then m else Micro(w, MicroRun(w, m, n - 1))
  }

  lemma {:induction false} MicroAdd(w: World, m: Spot, a: nat, b: nat)
    ensures MicroRun(w, MicroRun(w, m, a), b) == MicroRun(w, m, a + b)
    decreases b
  {
    if b > 0 {
      MicroAdd(w, m, a, b - 1);
    }
  }

  ghost predicate ReachesIn(w: World, m: Spot, m': Spot, n: nat) {
    MicroRun(w, m, n) == m'
  }

  ghost predicate Reaches(w: World, m: Spot, m': Spot) {
    exists n: nat :: ReachesIn(w, m, m', n)
  }

  lemma ReachesTrans(w: World, a: Spot, b: Spot, c: Spot)
    requires Reaches(w, a, b) && Reaches(w, b, c)
    ensures Reaches(w, a, c)
  {
    var n: nat :| ReachesIn(w, a, b, n);
    var k: nat :| ReachesIn(w, b, c, k);
    MicroAdd(w, a, n, k);
    assert ReachesIn(w, a, c, n + k);
  }

  lemma ReachesRefl(w: World, a: Spot)
    ensures Reaches(w, a, a)
  {
    assert ReachesIn(w, a, a, 0);
  }

  lemma ReachesOne(w: World, a: Spot)
    ensures Reaches(w, a, Micro(w, a))
  {
    assert MicroRun(w, a, 0) == a;
    assert ReachesIn(w, a, Micro(w, a), 1);
  }

  /** Still running after n steps, with these events behind it. */
  ghost predicate RunningAt(w: World, m: Spot, n: nat, events: seq<Event>) {
    var m' := MicroRun(w, m, n);
    m'.Mid? && m'.r.events == events && m'.r.clean == m.r.clean
  }

  /** The same, after at least n steps. */
  ghost predicate RunsOn(w: World, m: Spot, n: nat, events: seq<Event>) {
    exists k: nat :: k >= n && RunningAt(w, m, k, events)
  }

  lemma RunsOnAfter(w: World, a: Spot, b: Spot, n: nat, events: seq<Event>)
    requires Reaches(w, a, b) && RunsOn(w, b, n, events) && b.r.clean == a.r.clean
    ensures RunsOn(w, a, n, events)
  {
    var j: nat :| ReachesIn(w, a, b, j);
    var k: nat :| k >= n && RunningAt(w, b, k, events);
    MicroAdd(w, a, j, k);
    assert RunningAt(w, a, j + k, events);
  }

  /** Coming round a loop takes at least one step. */
  lemma RunsOnLonger(w: World, a: Spot, b: Spot, n: nat, events: seq<Event>)
    requires Reaches(w, Micro(w, a), b) && RunsOn(w, b, n, events) && b.r.clean == a.r.clean == Micro(w, a).r.clean
    ensures RunsOn(w, a, n + 1, events)
  {
    RunsOnAfter(w, Micro(w, a), b, n, events);
    var k: nat :| k >= n && RunningAt(w, Micro(w, a), k, events);
    assert MicroRun(w, a, 0) == a && MicroRun(w, a, 1) == Micro(w, a);
    MicroAdd(w, a, 1, k);
    assert RunningAt(w, a, 1 + k, events);
  }

  /** Where the next instruction of c will run. */
  ghost function Here(c: Code, r: Regs): Spot
    requires CodeOk(c)
  {
    Mid(c.cur, |c.body[c.cur]|, r)
  }

  // ----- one more instruction, one more terminator -----

  function Append(c: Code, i: Instr): Code {
    c.(body := c.body[c.cur := (if c.cur in c.body then c.body[c.cur] else []) + [i]], nextId := if Defines(i).Some? then c.nextId + 1 else c.nextId)
  }

  lemma AppendOk(c: Code, i: Instr)
    requires CodeOk(c) && c.cur !in c.term
    ensures CodeOk(Append(c, i)) && Grew(c, Append(c, i))
  {
  }

  lemma DefinedSnoc(instrs: seq<Instr>, i: Instr)
    ensures DefinedIn(instrs + [i]) == DefinedIn(instrs) + (if Defines(i).Some? then {Defines(i).value} else {})
  {
    var s := instrs + [i];
    forall x ensures x in DefinedIn(s) <==> x in DefinedIn(instrs) || Defines(i) == Some(x) {
      if x in DefinedIn(instrs) {
        var j :| j in instrs && Defines(j) == Some(x);
        assert j in s;
      }
      if Defines(i) == Some(x) {
        assert i in s;
      }
    }
  }

  lemma AppendAvail(c: Code, i: Instr)
    requires CodeOk(c) && c.cur !in c.term
    ensures CodeOk(Append(c, i))
    ensures AvailNow(Append(c, i)) == AvailNow(c) + (if Defines(i).Some? then {Defines(i).value} else {})
  {
    var instrs := c.body[c.cur];
    DefinedSnoc(instrs, i);
    assert instrs[..|instrs|] == instrs;
    assert (instrs + [i])[..|instrs + [i]|] == instrs + [i];
  }

  lemma AppendIds(c: Code, i: Instr)
    requires CodeOk(c) && IdsOnce(c) && 0 <= c.nextId && (Defines(i).Some? ==> Defines(i).value == c.nextId)
    ensures IdsOnce(Append(c, i))
  {
  }

  lemma AppendUses(c: Code, i: Instr)
    requires CodeOk(c) && UsesOk(c) && c.cur !in c.term && UsesAvail(AvailNow(c), Uses(i))
    ensures CodeOk(Append(c, i)) && UsesOk(Append(c, i))
  {
    hide DefinedIn, UsesAvail;
    var c' := Append(c, i);
    var instrs := c.body[c.cur];
    assert instrs[..|instrs|] == instrs;
    forall b, j | b in c'.body && 0 <= j < |c'.body[b]| ensures UsesAvail(AvailAt(c', b, j), Uses(c'.body[b][j])) {
      if b == c.cur {
        assert (instrs + [i])[..j] == instrs[..j];
      }
    }
  }

  lemma AppendCertified(c: Code, i: Instr)
    requires CodeOk(c) && Certified(c) && c.cur !in c.term && 0 <= c.nextId
    requires Defines(i).Some? ==> Defines(i).value == c.nextId
    requires UsesAvail(AvailNow(c), Uses(i))
    ensures CodeOk(Append(c, i)) && Certified(Append(c, i))
  {
    hide DefinedIn, UsesAvail, IdsOnce, UsesOk;
    AppendIds(c, i);
    AppendUses(c, i);
  }

  /** The next micro step runs the instruction that was appended. */
  lemma StepHere(w: World, c: Code, i: Instr, r: Regs)
    requires CodeOk(c) && c.cur !in c.term && FinalOf(Append(c, i), w.f)
    ensures CodeOk(Append(c, i)) && Micro(w, Here(c, r)) == Here(Append(c, i), Step(w.sem, w.args, r, i))
    ensures FinalOf(c, w.f)
  {
    AppendOk(c, i);
    FinalBack(c, Append(c, i), w.f);
    var n := |c.body[c.cur]|;
    assert Append(c, i).body[c.cur][n] == i;
    assert w.f.body[c.cur][..n + 1] == Append(c, i).body[c.cur];
    assert w.f.body[c.cur][n] == w.f.body[c.cur][..n + 1][n];
  }

  lemma FinalAppend(c: Code, i: Instr, f: Func)
    requires CodeOk(c) && c.cur !in c.term && FinalOf(Append(c, i), f)
    ensures FinalOf(c, f)
  {
    AppendOk(c, i);
    FinalBack(c, Append(c, i), f);
  }

  lemma FinalBranch(c: Code, t: Term, next: Block, f: Func)
    requires CodeOk(c) && c.cur !in c.term && FinalOf(Branch(c, t, next), f)
    ensures FinalOf(c, f)
  {
    var c' := Branch(c, t, next);
    forall b | b in c.body ensures b in f.body && c.body[b] <= f.body[b] {
      assert b in c'.body;
    }
    forall b | b in c.term ensures f.body[b] == c.body[b] && b in f.term && f.term[b] == c.term[b] {
      assert c'.term[b] == c.term[b];
    }
  }

  /** New open blocks at the end, where the names of now are available. */
  ghost function Create(c: Code, n: nat): Code
    requires CodeOk(c)
  {
    c.(count := c.count + n,
       body := map b | 0 <= b < c.count + n :: if b in c.body then c.body[b] else [],
       avail := map b | 0 <= b < c.count + n :: if b in c.avail then c.avail[b] else AvailNow(c))
  }

  lemma CreateOk(c: Code, n: nat)
    requires CodeOk(c)
    ensures CodeOk(Create(c, n)) && Grew(c, Create(c, n)) && Create(c, n).cur == c.cur
    ensures AvailNow(Create(c, n)) == AvailNow(c)
    ensures Certified(c) ==> Certified(Create(c, n))
    ensures forall b | c.count <= b < c.count + n :: Create(c, n).body[b] == [] && Create(c, n).avail[b] == AvailNow(c)
  {
    hide DefinedIn, Certified, AvailNow;
    CreatedAvail(c, n);
    if Certified(c) {
      CreateCertified(c, n);
    }
  }

  lemma CreatedAvail(c: Code, n: nat)
    requires CodeOk(c)
    ensures CodeOk(Create(c, n)) && AvailNow(Create(c, n)) == AvailNow(c)
    ensures forall b, i | b in c.body && 0 <= i <= |c.body[b]| :: AvailAt(Create(c, n), b, i) == AvailAt(c, b, i)
  {
    hide DefinedIn;
  }

  lemma CreateCertified(c: Code, n: nat)
    requires CodeOk(c) && Certified(c) && CodeOk(Create(c, n))
    requires forall b, i | b in c.body && 0 <= i <= |c.body[b]| :: AvailAt(Create(c, n), b, i) == AvailAt(c, b, i)
    ensures Certified(Create(c, n))
  {
    hide DefinedIn, AvailAt, UsesAvail;
  }

  /** Ending the current block and going on in another. */
  function Branch(c: Code, t: Term, next: Block): Code {
    c.(term := c.term[c.cur := t], cur := next)
  }

  lemma BranchOk(base: Code, c: Code, t: Term, next: Block)
    requires CodeOk(base) && CodeOk(c) && Grew(base, c) && base.cur !in base.term && c.cur !in c.term
    requires forall b | b in Targets(t) :: base.count <= b < c.count && 0 < b
    requires next == c.cur || base.count <= next < c.count
    ensures CodeOk(Branch(c, t, next)) && Grew(base, Branch(c, t, next))
  {
  }

  lemma BranchCertified(c: Code, t: Term, next: Block)
    requires CodeOk(c) && Certified(c) && CodeOk(Branch(c, t, next)) && c.cur !in c.term
    requires UsesAvail(AvailNow(c), TermUses(t)) && forall b | b in Targets(t) :: b in c.avail && c.avail[b] <= AvailNow(c)
    ensures Certified(Branch(c, t, next))
  {
    hide DefinedIn;
    var c' := Branch(c, t, next);
    forall b, i | b in c.body && 0 <= i <= |c.body[b]| ensures AvailAt(c', b, i) == AvailAt(c, b, i) {
    }
  }

  /** Going on in another open block. */
  lemma MoveOk(base: Code, c: Code, next: Block)
    requires CodeOk(base) && CodeOk(c) && Grew(base, c) && base.count <= next < c.count
    ensures CodeOk(c.(cur := next)) && Grew(base, c.(cur := next))
    ensures Certified(c) ==> Certified(c.(cur := next))
  {
    hide DefinedIn;
    var c' := c.(cur := next);
    forall b, i | b in c.body && 0 <= i <= |c.body[b]| ensures AvailAt(c', b, i) == AvailAt(c, b, i) {
    }
  }

  lemma FinalCur(c: Code, b: Block, f: Func)
    ensures FinalOf(c, f) <==> FinalOf(c.(cur := b), f)
  {
  }

  /** The next micro step takes the branch. */
  lemma BranchHere(w: World, c: Code, t: Term, next: Block, r: Regs)
    requires CodeOk(c) && c.cur !in c.term && FinalOf(Branch(c, t, next), w.f)
    ensures FinalOf(c, w.f)
    ensures Micro(w, Here(c, r)) ==
            match t
            case Br(b) => Mid(b, 0, r)
            case CondBr(v, b, d) => Mid(if Eval(w.args, r.env, v) != 0 then b else d, 0, r)
            case Ret(v) => End(if v.Some? then Some(Eval(w.args, r.env, v.value)) else None, r)
  {
    FinalBranch(c, t, next, w.f);
    assert Branch(c, t, next).term[c.cur] == t;
  }
}
