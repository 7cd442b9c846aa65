/** Which blocks the code of a statement leaves unreachable, read off its syntax: after an if
    whose branches both leave, the block where they join is built although nothing comes there. */
module LiveBlocks {
  import opened Common
  import opened Cfg
  import opened Ir
  import opened Building
  import opened Translation
  import opened IndexCode
  import opened StmtCode
  import opened ControlCode
  import opened ScopeCode
  import opened FunctionCode
  import opened CompiledCode
  import opened Closing
  import opened Layout
  import Ast

  // ----- on the syntax -----

  /** How the block that a statement ends in is left: open and reached, open but not reached, or ended. */
  datatype Exit = Going | Lost | Stopped

  function ExitOf(s: Ast.Stmt): Exit {
    match s
    case Expression(_) => Going
    case Return(_) => Stopped
    case While(_, _) => Going
    case If(_, _, None) => Going
    case If(_, yes, Some(no)) => if ExitOf(yes).Going? || ExitOf(no).Going? then Going else Lost
    case Compound(_, stmts) => ExitOfAll(stmts)
  }

  /** Building goes on through lost statements and stops behind a stopped one. */
  function ExitOfAll(stmts: seq<Ast.Stmt>): Exit {
    if stmts == [] then Going
    else ExitAfter(ExitOfAll(stmts[..|stmts| - 1]), ExitOf(stmts[|stmts| - 1]))
  }

  function ExitAfter(e: Exit, next: Exit): Exit {
    match e
    case Going => next
    case Lost => if next.Stopped? then Stopped else Lost
    case Stopped => Stopped
  }

  /** Everything that is built is reached. */
  predicate AllReached(s: Ast.Stmt) {
    match s
    case If(_, yes, None) => AllReached(yes)
    case If(_, yes, Some(no)) => AllReached(yes) && AllReached(no) && (ExitOf(yes).Going? || ExitOf(no).Going?)
    case While(_, body) => AllReached(body)
    case Compound(_, stmts) => AllReachedList(stmts)
    case _ => true
  }

  predicate AllReachedList(stmts: seq<Ast.Stmt>) {
    stmts == [] || (AllReachedList(stmts[..|stmts| - 1]) && (ExitOfAll(stmts[..|stmts| - 1]).Going? ==> AllReached(stmts[|stmts| - 1])))
  }

  /** No open block that is not reached is joined to one that is. */
  predicate Sealed(s: Ast.Stmt) {
    match s
    case If(_, yes, None) => Sealed(yes) && !ExitOf(yes).Lost?
    case If(_, yes, Some(no)) =>
      && Sealed(yes) && Sealed(no)
      && !(ExitOf(yes).Lost? && ExitOf(no).Going?) && !(ExitOf(yes).Going? && ExitOf(no).Lost?)
    case While(_, body) => Sealed(body) && !ExitOf(body).Lost?
    case Compound(_, stmts) => SealedList(stmts)
    case _ => true
  }

  predicate SealedList(stmts: seq<Ast.Stmt>) {
    stmts == [] || (SealedList(stmts[..|stmts| - 1]) && (ExitOfAll(stmts[..|stmts| - 1]).Going? ==> Sealed(stmts[|stmts| - 1])))
  }

  // ----- on the code -----

  ghost predicate CodeWalk(c: Code, p: seq<Block>, u: Block, v: Block) {
    && |p| > 0 && p[0] == u && p[|p| - 1] == v
    && forall i | 0 <= i < |p| - 1 :: Goes(c, p[i], p[i + 1])
  }

  ghost predicate Leads(c: Code, u: Block, v: Block) {
    exists p :: CodeWalk(c, p, u, v)
  }

  lemma LeadsSelf(c: Code, u: Block)
    ensures Leads(c, u, u)
  {
    assert CodeWalk(c, [u], u, u);
  }

  lemma LeadsStep(c: Code, u: Block, v: Block)
    requires Goes(c, u, v)
    ensures Leads(c, u, v)
  {
    assert CodeWalk(c, [u, v], u, v);
  }

  lemma LeadsTrans(c: Code, u: Block, v: Block, x: Block)
    requires Leads(c, u, v) && Leads(c, v, x)
    ensures Leads(c, u, x)
  {
    var p :| CodeWalk(c, p, u, v);
    var q :| CodeWalk(c, q, v, x);
    var r := p + q[1..];
    forall i | 0 <= i < |r| - 1 ensures Goes(c, r[i], r[i + 1]) {
      if i < |p| - 1 {
        assert Goes(c, p[i], p[i + 1]);
      } else {
        var k := i - |p| + 1;
        assert r[i] == q[k] && r[i + 1] == q[k + 1];
        assert Goes(c, q[k], q[k + 1]);
      }
    }
    assert CodeWalk(c, r, u, x);
  }

  lemma LeadsMore(c: Code, c': Code, u: Block, v: Block)
    requires Leads(c, u, v) && forall b | b in c.term :: b in c'.term && c'.term[b] == c.term[b]
    ensures Leads(c', u, v)
  {
    var p :| CodeWalk(c, p, u, v);
    forall i | 0 <= i < |p| - 1 ensures Goes(c', p[i], p[i + 1]) {
      assert Goes(c, p[i], p[i + 1]);
    }
    assert CodeWalk(c', p, u, v);
  }

  /** Of the blocks that are new from c to c', dead are the ones that the current block of c does not lead to. */
  ghost predicate Flow(c: Code, c': Code, dead: set<Block>) {
    && (forall b | b in dead :: c.count <= b < c'.count)
    && (forall b | c.count <= b < c'.count && b !in dead :: Leads(c', c.cur, b))
    && (forall u, v | Goes(c', u, v) && (u == c.cur || c.count <= u < c'.count) && u !in dead :: v !in dead)
  }

  ghost predicate Leaks(c: Code, dead: set<Block>) {
    exists u, v :: u in dead && Goes(c, u, v) && v !in dead
  }

  ghost function ExitAt(c: Code, dead: set<Block>): Exit {
    if c.cur in c.term then Stopped else if c.cur in dead then Lost else Going
  }

  /** What the code of a statement leaves unreached, by the statement's syntax. */
  ghost predicate Shape(c: Code, c': Code, exit: Exit, reached: bool, tight: bool) {
    exists dead :: ShapeWith(c, c', dead, exit, reached, tight)
  }

  ghost predicate ShapeWith(c: Code, c': Code, dead: set<Block>, exit: Exit, reached: bool, tight: bool) {
    Flow(c, c', dead) && ExitAt(c', dead) == exit && (reached <==> dead == {}) && (tight <==> !Leaks(c', dead))
  }

  lemma FlowStart(c: Code)
    requires c.cur !in c.term
    ensures ShapeWith(c, c, {}, Going, true, true) && Shape(c, c, Going, true, true)
  {
    assert ShapeWith(c, c, {}, Going, true, true);
  }

  lemma FlowJoined(c: Code, d: Code, e: Code, dead1: set<Block>, dead2: set<Block>)
    requires CodeOk(c) && CodeOk(d) && CodeOk(e) && Grew(c, d) && Grew(d, e) && d.cur !in d.term
    requires Flow(c, d, dead1) && Flow(d, e, dead2) && d.cur !in dead1
    ensures Flow(c, e, dead1 + dead2)
  {
    hide Leads, Goes, CodeOk;
    var dead := dead1 + dead2;
    FlowLeads(c, d, e, dead1, dead2);
    forall u, v | Goes(e, u, v) && (u == c.cur || c.count <= u < e.count) && u !in dead ensures v !in dead {
      FlowEdges(c, d, e, dead1, dead2, u, v);
    }
  }

  lemma FlowLeads(c: Code, d: Code, e: Code, dead1: set<Block>, dead2: set<Block>)
    requires CodeOk(c) && CodeOk(d) && Grew(c, d) && Grew(d, e)
    requires Flow(c, d, dead1) && Flow(d, e, dead2) && d.cur !in dead1
    ensures forall b | c.count <= b < e.count && b !in dead1 + dead2 :: Leads(e, c.cur, b)
  {
    hide Leads, Goes;
    GrewTerms(d, e);
    forall b | c.count <= b < e.count && b !in dead1 + dead2 ensures Leads(e, c.cur, b) {
      if b < d.count {
        LeadsMore(d, e, c.cur, b);
      } else {
        if d.cur == c.cur {
          LeadsSelf(e, c.cur);
        } else {
          LeadsMore(d, e, c.cur, d.cur);
        }
        LeadsTrans(e, c.cur, d.cur, b);
      }
    }
  }

  lemma FlowEdges(c: Code, d: Code, e: Code, dead1: set<Block>, dead2: set<Block>, u: Block, v: Block)
    requires CodeOk(c) && CodeOk(d) && CodeOk(e) && Grew(c, d) && Grew(d, e) && d.cur !in d.term
    requires Flow(c, d, dead1) && Flow(d, e, dead2) && d.cur !in dead1
    requires Goes(e, u, v) && (u == c.cur || c.count <= u < e.count) && u !in dead1 + dead2
    ensures v !in dead1 + dead2
  {
    hide Leads;
    GrewTerms(d, e);
    if u < d.count && u != d.cur {
      assert Goes(d, u, v);
      assert v < d.count;
    } else {
      assert v >= d.count;
    }
  }

  lemma LeaksJoined(c: Code, d: Code, e: Code, dead1: set<Block>, dead2: set<Block>)
    requires CodeOk(c) && CodeOk(d) && CodeOk(e) && Grew(c, d) && Grew(d, e) && d.cur !in d.term
    requires Flow(c, d, dead1) && Flow(d, e, dead2) && d.cur !in dead1
    ensures Leaks(e, dead1 + dead2) <==> Leaks(d, dead1) || Leaks(e, dead2)
  {
    hide Leads;
    GrewTerms(d, e);
    if Leaks(d, dead1) {
      var u, v :| u in dead1 && Goes(d, u, v) && v !in dead1;
      assert u in dead1 + dead2 && Goes(e, u, v) && v !in dead1 + dead2;
    }
    if Leaks(e, dead2) {
      var u, v :| u in dead2 && Goes(e, u, v) && v !in dead2;
      assert u in dead1 + dead2 && Goes(e, u, v) && v !in dead1 + dead2;
    }
    if Leaks(e, dead1 + dead2) {
      var u, v :| u in dead1 + dead2 && Goes(e, u, v) && v !in dead1 + dead2;
      if u in dead1 {
        assert Goes(d, u, v);
      }
    }
  }

  ghost function NewBlocks(c: Code, c': Code): set<Block> {
    set b | b in c'.avail && c.count <= b
  }

  /** What is built where nothing comes is not reached either. */
  lemma FlowLost(c: Code, d: Code, e: Code, dead: set<Block>)
    requires CodeOk(c) && CodeOk(d) && CodeOk(e) && Grew(c, d) && Grew(d, e) && d.cur !in d.term
    requires Flow(c, d, dead) && d.cur in dead
    ensures Flow(c, e, dead + NewBlocks(d, e)) && (Leaks(e, dead + NewBlocks(d, e)) <==> Leaks(d, dead))
  {
    hide Leads;
    GrewTerms(d, e);
    var all := dead + NewBlocks(d, e);
    forall b | c.count <= b < e.count && b !in all ensures Leads(e, c.cur, b) {
      LeadsMore(d, e, c.cur, b);
    }
    forall u, v | Goes(e, u, v) && (u == c.cur || c.count <= u < e.count) && u !in all ensures v !in all {
      assert Goes(d, u, v);
    }
    if Leaks(d, dead) {
      var u, v :| u in dead && Goes(d, u, v) && v !in dead;
      assert u in all && Goes(e, u, v) && v !in all;
    }
    if Leaks(e, all) {
      var u, v :| u in all && Goes(e, u, v) && v !in all;
      assert u in dead && Goes(d, u, v) && v !in dead;
    }
  }

  /** One piece of code after another. */
  lemma ShapeAfter(c: Code, d: Code, e: Code, exit1: Exit, reached1: bool, tight1: bool, exit2: Exit, reached2: bool, tight2: bool)
    requires CodeOk(c) && CodeOk(d) && CodeOk(e) && Grew(c, d) && Grew(d, e) && d.cur !in d.term
    requires Shape(c, d, exit1, reached1, tight1) && Shape(d, e, exit2, reached2, tight2)
    ensures Shape(c, e, ExitAfter(exit1, exit2), reached1 && (exit1.Going? ==> reached2), tight1 && (exit1.Going? ==> tight2))
  {
    hide Flow, Leaks, CodeOk;
    var dead1 :| ShapeWith(c, d, dead1, exit1, reached1, tight1);
    var dead2 :| ShapeWith(d, e, dead2, exit2, reached2, tight2);
    GrewCur(d, e);
    if d.cur in dead1 {
      FlowLost(c, d, e, dead1);
      assert ShapeWith(c, e, dead1 + NewBlocks(d, e), ExitAfter(exit1, exit2), false, tight1);
    } else {
      FlowJoined(c, d, e, dead1, dead2);
      LeaksJoined(c, d, e, dead1, dead2);
      FlowOld(d, e, dead2);
      FlowOld(c, d, dead1);
      assert ShapeWith(c, e, dead1 + dead2, exit2, reached1 && reached2, tight1 && tight2);
    }
  }

  lemma GrewCur(d: Code, e: Code)
    requires CodeOk(d) && CodeOk(e) && Grew(d, e)
    ensures e.cur == d.cur || (d.count <= e.cur < e.count && e.cur in NewBlocks(d, e))
  {
  }

  lemma FlowOld(c: Code, c': Code, dead: set<Block>)
    requires CodeOk(c) && Flow(c, c', dead)
    ensures forall b | b in dead :: c.count <= b < c'.count
  {
  }

  lemma ShapeSame(c: Code, d: Code, e: Code, exit: Exit, reached: bool, tight: bool)
    requires Shape(c, d, exit, reached, tight) && e.count == d.count && e.term == d.term && e.cur == d.cur
    ensures Shape(c, e, exit, reached, tight)
  {
    var dead :| ShapeWith(c, d, dead, exit, reached, tight);
    forall b | c.count <= b < e.count && b !in dead ensures Leads(e, c.cur, b) {
      LeadsMore(d, e, c.cur, b);
    }
    assert forall u, v :: Goes(d, u, v) <==> Goes(e, u, v);
    assert ShapeWith(c, e, dead, exit, reached, tight);
  }

  /** A return. */
  lemma ShapeRet(c: Code, d: Code, val: Option<Val>, exit: Exit, reached: bool, tight: bool)
    requires CodeOk(c) && CodeOk(d) && Grew(c, d) && d.cur !in d.term && Shape(c, d, exit, reached, tight)
    ensures Shape(c, Branch(d, Ret(val), d.cur), Stopped, reached, tight)
  {
    hide Leads;
    var e := Branch(d, Ret(val), d.cur);
    var dead :| ShapeWith(c, d, dead, exit, reached, tight);
    forall b | c.count <= b < e.count && b !in dead ensures Leads(e, c.cur, b) {
      LeadsMore(d, e, c.cur, b);
    }
    assert forall u, v :: Goes(d, u, v) <==> Goes(e, u, v);
    assert ShapeWith(c, e, dead, Stopped, reached, tight);
  }

  lemma EndedLaid(c: Code, d: Code, isVoid: bool)
    requires Ordered(c, d)
    ensures Ordered(c, Ended(d, isVoid))
  {
    hide Ordered;
    if d.cur !in d.term {
      LaidRet(c, d, DefaultRet(isVoid).val);
    }
  }

  lemma EndedShape(c: Code, d: Code, isVoid: bool, exit: Exit, reached: bool, tight: bool)
    requires CodeOk(c) && CodeOk(d) && Grew(c, d) && Shape(c, d, exit, reached, tight)
    ensures Shape(c, Ended(d, isVoid), Stopped, reached, tight)
  {
    if d.cur !in d.term {
      ShapeRet(c, d, DefaultRet(isVoid).val, exit, reached, tight);
    }
  }

  // ----- the check of an index -----

  lemma GuardShape(c: Code, v: Val, isVoid: bool)
    requires CodeOk(c) && c.cur !in c.term
    ensures Shape(c, Guarded(c, v, isVoid), Going, true, true)
  {
    hide AvailNow;
    var g := Guarded(c, v, isVoid);
    CreateCount(c, 2);
    assert Create(c, 2).term == c.term && Create(c, 2).cur == c.cur;
    assert g.term == c.term[c.cur := CondBr(Res(c.nextId), c.count, c.count + 1)][c.count := DefaultRet(isVoid)];
    assert Goes(g, c.cur, c.count) && Goes(g, c.cur, c.count + 1);
    LeadsStep(g, c.cur, c.count);
    LeadsStep(g, c.cur, c.count + 1);
    assert ShapeWith(c, g, {}, Going, true, true);
  }

  // ----- if and while -----

  lemma TestedIs(c: Code, v: Val, hasElse: bool)
    requires CodeOk(c) && (hasElse ==> CodeOk(Compared0(c, v)))
    ensures Tested(c, v, hasElse).cur == c.count
    ensures Tested(c, v, hasElse).term == c.term[c.cur := CondBr(Res(c.nextId), c.count, Otherwise(c, hasElse))]
  {
    hide AvailNow;
    assert Create(c, 2).term == c.term && Create(c, 2).cur == c.cur;
  }

  lemma HeadedIs(c: Code)
    requires CodeOk(c)
    ensures Headed(c).cur == c.count && Headed(c).term == c.term[c.cur := Br(c.count)]
  {
    hide AvailNow;
    assert Create(c, 1).term == c.term && Create(c, 1).cur == c.cur;
  }

  lemma HeadShape(c: Code)
    requires CodeOk(c) && c.cur !in c.term && Headed(c).count == c.count + 1
    ensures Shape(c, Headed(c), Going, true, true)
  {
    hide Headed;
    HeadedIs(c);
    var h := Headed(c);
    assert Goes(h, c.cur, c.count);
    LeadsStep(h, c.cur, c.count);
    assert ShapeWith(c, h, {}, Going, true, true);
  }

  lemma JoinedFlow(c: Code, c1: Code, t: Code, c5: Code, target: Block, next: Block, dead: set<Block>)
    requires Branched(c, c1, t, c5, target, next) && Flow(c, c1, {}) && Flow(t, c5, dead)
    ensures Flow(c, JoinTo(c5, target, next), dead)
  {
    hide Leads;
    var d := JoinTo(c5, target, next);
    JoinedLeads(c, c1, t, c5, target, next, dead);
    forall u, v | Goes(d, u, v) && (u == c.cur || c.count <= u < d.count) && u !in dead ensures v !in dead {
      JoinedEdge(c, c1, t, c5, target, next, dead, u, v);
    }
  }

  lemma JoinedEdge(c: Code, c1: Code, t: Code, c5: Code, target: Block, next: Block, dead: set<Block>, u: Block, v: Block)
    requires Branched(c, c1, t, c5, target, next) && Flow(t, c5, dead)
    requires Goes(JoinTo(c5, target, next), u, v) && u !in dead && 0 <= u
    ensures v !in dead
  {
    hide Leads;
    JoinTerms(c5, target, next);
    GrewTerms(t, c5);
    if u in c5.term {
      assert Goes(c5, u, v);
      if u < t.count && u != t.cur {
        assert u in t.term;
        assert v < t.count;
      }
    }
  }

  lemma JoinedLeads(c: Code, c1: Code, t: Code, c5: Code, target: Block, next: Block, dead: set<Block>)
    requires Branched(c, c1, t, c5, target, next) && Flow(c, c1, {}) && Flow(t, c5, dead)
    ensures forall b | c.count <= b < c5.count && b !in dead :: Leads(JoinTo(c5, target, next), c.cur, b)
  {
    hide Leads, Goes;
    var d := JoinTo(c5, target, next);
    JoinTerms(c5, target, next);
    GrewTerms(t, c5);
    TestLeads(c, c1, t, d, c1.nextId, next);
    forall b | c.count <= b < c5.count && b !in dead ensures Leads(d, c.cur, b) {
      if b < c1.count {
        LeadsMore(c1, d, c.cur, b);
      } else if b >= t.count {
        LeadsMore(c5, d, t.cur, b);
        LeadsTrans(d, c.cur, t.cur, b);
      }
    }
  }

  /** Both sides of the test are reached. */
  lemma TestLeads(c: Code, c1: Code, t: Code, d: Code, n: Id, k: Block)
    requires CodeOk(c) && CodeOk(c1) && Grew(c, c1) && Flow(c, c1, {}) && c1.cur !in c1.term
    requires t.term == c1.term[c1.cur := CondBr(Res(n), c1.count, k)]
    requires forall b | b in t.term :: b in d.term && d.term[b] == t.term[b]
    ensures Leads(d, c.cur, c1.count) && Leads(d, c.cur, k)
    ensures forall b | b in c1.term :: b in d.term && d.term[b] == c1.term[b]
  {
    hide Leads;
    if c1.cur == c.cur {
      LeadsSelf(d, c.cur);
    } else {
      LeadsMore(c1, d, c.cur, c1.cur);
    }
    assert Goes(d, c1.cur, c1.count) && Goes(d, c1.cur, k);
    LeadsStep(d, c1.cur, c1.count);
    LeadsTrans(d, c.cur, c1.cur, c1.count);
    LeadsStep(d, c1.cur, k);
    LeadsTrans(d, c.cur, c1.cur, k);
  }

  lemma JoinedLeaks(c: Code, c1: Code, t: Code, c5: Code, target: Block, next: Block, dead: set<Block>)
    requires Branched(c, c1, t, c5, target, next) && Flow(t, c5, dead)
    ensures Leaks(JoinTo(c5, target, next), dead) <==> Leaks(c5, dead) || (c5.cur !in c5.term && c5.cur in dead)
  {
    hide Leads;
    var d := JoinTo(c5, target, next);
    JoinTerms(c5, target, next);
    assert target !in dead;
    if Leaks(c5, dead) {
      var u, v :| u in dead && Goes(c5, u, v) && v !in dead;
      assert u in dead && Goes(d, u, v) && v !in dead;
    }
    if c5.cur !in c5.term && c5.cur in dead {
      assert Goes(d, c5.cur, target);
    }
    if Leaks(d, dead) {
      var u, v :| u in dead && Goes(d, u, v) && v !in dead;
      assert u in c5.term ==> Goes(c5, u, v);
    }
  }

  /** The block behind is open, and reached. */
  lemma NextOpen(c: Code, c1: Code, t: Code, c5: Code, target: Block, next: Block, dead: set<Block>)
    requires Branched(c, c1, t, c5, target, next) && Flow(t, c5, dead)
    ensures ExitAt(JoinTo(c5, target, next), dead) == Going
  {
    GrewTerms(t, c5);
    GrewCur(t, c5);
    assert next !in t.term;
  }

  /** An if without else, and a loop. */
  lemma JoinedShape(c: Code, c1: Code, t: Code, c5: Code, target: Block, next: Block, exit: Exit, reached: bool, tight: bool)
    requires Branched(c, c1, t, c5, target, next) && Shape(c, c1, Going, true, true) && Shape(t, c5, exit, reached, tight)
    ensures Shape(c, JoinTo(c5, target, next), Going, reached, tight && !exit.Lost?)
  {
    hide Flow, Leaks, Branched, JoinTo;
    var none :| ShapeWith(c, c1, none, Going, true, true);
    var dead :| ShapeWith(t, c5, dead, exit, reached, tight);
    JoinedFlow(c, c1, t, c5, target, next, dead);
    JoinedLeaks(c, c1, t, c5, target, next, dead);
    NextOpen(c, c1, t, c5, target, next, dead);
    assert ShapeWith(c, JoinTo(c5, target, next), dead, Going, reached, tight && !exit.Lost?);
  }

  // ----- if with else -----

  /** The blocks of both branches that are not reached, and the one behind if no branch comes there. */
  ghost function BothDead(c1: Code, c5: Code, dead5: set<Block>, c7: Code, dead7: set<Block>): set<Block> {
    dead5 + dead7 + if ExitAt(c5, dead5).Going? || ExitAt(c7, dead7).Going? then {} else {c1.count + 1}
  }

  lemma BothFlow(c1: Code, t: Code, c5: Code, c6: Code, c7: Code, dead5: set<Block>, dead7: set<Block>)
    requires BothBranched(c1, t, c5, c6, c7) && Flow(t, c5, dead5) && Flow(c6, c7, dead7)
    ensures Flow(c1, JoinTo(c7, c1.count + 1, c1.count + 1), BothDead(c1, c5, dead5, c7, dead7))
  {
    hide Leads, Goes, JoinTo, BothBranched;
    var d, dead := JoinTo(c7, c1.count + 1, c1.count + 1), BothDead(c1, c5, dead5, c7, dead7);
    BothTerms(c1, t, c5, c6, c7);
    BothPlaces(c1, t, c5, c6, c7);
    BothLeads(c1, t, c5, c6, c7, dead5, dead7);
    BothIn(c1, t, c5, c6, c7);
    forall u, v | Goes(d, u, v) && (u == c1.cur || c1.count <= u < d.count) && u !in dead ensures v !in dead {
      BothEdges(c1, t, c5, c6, c7, u, v);
    }
  }

  lemma BothIn(c1: Code, t: Code, c5: Code, c6: Code, c7: Code)
    requires BothBranched(c1, t, c5, c6, c7)
    ensures t.cur == c1.count && t.count == c1.count + 3 && CodeOk(c1) && CodeOk(c5) && CodeOk(c7)
  {
  }

  lemma BothLeads(c1: Code, t: Code, c5: Code, c6: Code, c7: Code, dead5: set<Block>, dead7: set<Block>)
    requires BothBranched(c1, t, c5, c6, c7) && Flow(t, c5, dead5) && Flow(c6, c7, dead7)
    ensures var d, dead := JoinTo(c7, c1.count + 1, c1.count + 1), BothDead(c1, c5, dead5, c7, dead7);
            forall b | c1.count <= b < d.count && b !in dead :: Leads(d, c1.cur, b)
  {
    hide Leads, JoinTo, BothBranched;
    var k := c1.count + 1;
    var d, dead := JoinTo(c7, k, k), BothDead(c1, c5, dead5, c7, dead7);
    BothTerms(c1, t, c5, c6, c7);
    BothPlaces(c1, t, c5, c6, c7);
    BothIn(c1, t, c5, c6, c7);
    assert Goes(d, c1.cur, c1.count) && Goes(d, c1.cur, k + 1);
    LeadsStep(d, c1.cur, c1.count);
    LeadsStep(d, c1.cur, k + 1);
    forall b | c1.count <= b < d.count && b != k && b !in dead ensures Leads(d, c1.cur, b) {
      if t.count <= b < c5.count {
        LeadsMore(c5, d, c1.count, b);
        LeadsTrans(d, c1.cur, c1.count, b);
      } else if b >= c5.count {
        LeadsMore(c7, d, k + 1, b);
        LeadsTrans(d, c1.cur, k + 1, b);
      }
    }
    if ExitAt(c5, dead5).Going? {
      assert Goes(d, c5.cur, k);
      LeadsStep(d, c5.cur, k);
      LeadsTrans(d, c1.cur, c5.cur, k);
    } else if ExitAt(c7, dead7).Going? {
      assert Goes(d, c7.cur, k);
      LeadsStep(d, c7.cur, k);
      LeadsTrans(d, c1.cur, c7.cur, k);
    }
  }

  lemma BothLeakOut(c1: Code, t: Code, c5: Code, c6: Code, c7: Code, dead5: set<Block>, dead7: set<Block>, part: Code, stuck: set<Block>)
    requires BothBranched(c1, t, c5, c6, c7) && Flow(t, c5, dead5) && Flow(c6, c7, dead7) && Leaks(part, stuck)
    requires (part == c5 && stuck == dead5) || (part == c7 && stuck == dead7)
    ensures Leaks(JoinTo(c7, c1.count + 1, c1.count + 1), BothDead(c1, c5, dead5, c7, dead7))
  {
    hide Leads, JoinTo, BothBranched;
    var k := c1.count + 1;
    var d, dead := JoinTo(c7, k, k), BothDead(c1, c5, dead5, c7, dead7);
    BothTerms(c1, t, c5, c6, c7);
    BothPlaces(c1, t, c5, c6, c7);
    BothIn(c1, t, c5, c6, c7);
    var u, v :| u in stuck && Goes(part, u, v) && v !in stuck;
    assert Goes(d, u, v);
    BothEdges(c1, t, c5, c6, c7, u, v);
    assert u in dead && v !in dead;
  }

  lemma BothLeakIn(c1: Code, t: Code, c5: Code, c6: Code, c7: Code, dead5: set<Block>, dead7: set<Block>)
    requires BothBranched(c1, t, c5, c6, c7) && Flow(t, c5, dead5) && Flow(c6, c7, dead7)
    requires Leaks(JoinTo(c7, c1.count + 1, c1.count + 1), BothDead(c1, c5, dead5, c7, dead7))
    ensures || Leaks(c5, dead5) || Leaks(c7, dead7)
            || (ExitAt(c5, dead5).Lost? && ExitAt(c7, dead7).Going?) || (ExitAt(c5, dead5).Going? && ExitAt(c7, dead7).Lost?)
  {
    hide Leads, JoinTo, BothBranched;
    var k := c1.count + 1;
    var d, dead := JoinTo(c7, k, k), BothDead(c1, c5, dead5, c7, dead7);
    BothTerms(c1, t, c5, c6, c7);
    BothPlaces(c1, t, c5, c6, c7);
    BothIn(c1, t, c5, c6, c7);
    var u, v :| u in dead && Goes(d, u, v) && v !in dead;
    assert u != k by {
      assert k !in d.term;
    }
    BothEdges(c1, t, c5, c6, c7, u, v);
  }

  lemma BothLeaks(c1: Code, t: Code, c5: Code, c6: Code, c7: Code, dead5: set<Block>, dead7: set<Block>)
    requires BothBranched(c1, t, c5, c6, c7) && Flow(t, c5, dead5) && Flow(c6, c7, dead7)
    ensures var d, dead := JoinTo(c7, c1.count + 1, c1.count + 1), BothDead(c1, c5, dead5, c7, dead7);
            Leaks(d, dead) <==>
              || Leaks(c5, dead5) || Leaks(c7, dead7)
              || (ExitAt(c5, dead5).Lost? && ExitAt(c7, dead7).Going?) || (ExitAt(c5, dead5).Going? && ExitAt(c7, dead7).Lost?)
  {
    hide Leads, JoinTo, BothBranched, Flow;
    var k := c1.count + 1;
    var d, dead := JoinTo(c7, k, k), BothDead(c1, c5, dead5, c7, dead7);
    if Leaks(c5, dead5) {
      BothLeakOut(c1, t, c5, c6, c7, dead5, dead7, c5, dead5);
    }
    if Leaks(c7, dead7) {
      BothLeakOut(c1, t, c5, c6, c7, dead5, dead7, c7, dead7);
    }
    BothTerms(c1, t, c5, c6, c7);
    FlowNotNext(c1, t, c5, c6, c7, dead5, dead7);
    if ExitAt(c5, dead5).Lost? {
      assert Goes(d, c5.cur, k) && c5.cur in dead;
    }
    if ExitAt(c7, dead7).Lost? {
      assert Goes(d, c7.cur, k) && c7.cur in dead;
    }
    if Leaks(d, dead) {
      BothLeakIn(c1, t, c5, c6, c7, dead5, dead7);
    }
  }

  lemma FlowNotNext(c1: Code, t: Code, c5: Code, c6: Code, c7: Code, dead5: set<Block>, dead7: set<Block>)
    requires BothBranched(c1, t, c5, c6, c7) && Flow(t, c5, dead5) && Flow(c6, c7, dead7)
    ensures c1.count + 1 !in dead5 + dead7
  {
    BothPlaces(c1, t, c5, c6, c7);
  }

  lemma ElseShape(c1: Code, t: Code, c5: Code, c6: Code, c7: Code, exit5: Exit, reached5: bool, tight5: bool, exit7: Exit, reached7: bool, tight7: bool)
    requires BothBranched(c1, t, c5, c6, c7) && Shape(t, c5, exit5, reached5, tight5) && Shape(c6, c7, exit7, reached7, tight7)
    ensures Shape(c1, JoinTo(c7, c1.count + 1, c1.count + 1), if exit5.Going? || exit7.Going? then Going else Lost,
                  reached5 && reached7 && (exit5.Going? || exit7.Going?),
                  tight5 && tight7 && !(exit5.Lost? && exit7.Going?) && !(exit5.Going? && exit7.Lost?))
  {
    hide Leads, Goes, JoinTo, BothBranched, Leaks, Flow, BothDead, ExitAt;
    var dead5 :| ShapeWith(t, c5, dead5, exit5, reached5, tight5);
    var dead7 :| ShapeWith(c6, c7, dead7, exit7, reached7, tight7);
    BothFlow(c1, t, c5, c6, c7, dead5, dead7);
    BothLeaks(c1, t, c5, c6, c7, dead5, dead7);
    BothExit(c1, t, c5, c6, c7, dead5, dead7);
    var exit := if exit5.Going? || exit7.Going? then Going else Lost;
    ShapeIntro(c1, JoinTo(c7, c1.count + 1, c1.count + 1), BothDead(c1, c5, dead5, c7, dead7), exit, reached5 && reached7 && exit.Going?,
               tight5 && tight7 && !(exit5.Lost? && exit7.Going?) && !(exit5.Going? && exit7.Lost?));
  }

  /** What is behind the join is lost if both branches are, and only then is it dead. */
  lemma BothExit(c1: Code, t: Code, c5: Code, c6: Code, c7: Code, dead5: set<Block>, dead7: set<Block>)
    requires BothBranched(c1, t, c5, c6, c7) && Flow(t, c5, dead5) && Flow(c6, c7, dead7)
    ensures var dead := BothDead(c1, c5, dead5, c7, dead7);
            && ExitAt(JoinTo(c7, c1.count + 1, c1.count + 1), dead) == (if ExitAt(c5, dead5).Going? || ExitAt(c7, dead7).Going? then Going else Lost)
            && (dead == {} <==> dead5 == {} && dead7 == {} && (ExitAt(c5, dead5).Going? || ExitAt(c7, dead7).Going?))
  {
    hide JoinTo, BothBranched, Leads, Goes;
    BothTerms(c1, t, c5, c6, c7);
    BothPlaces(c1, t, c5, c6, c7);
    BothIn(c1, t, c5, c6, c7);
  }

  lemma ShapeIntro(c: Code, c': Code, dead: set<Block>, exit: Exit, reached: bool, tight: bool)
    requires ShapeWith(c, c', dead, exit, reached, tight)
    ensures Shape(c, c', exit, reached, tight)
  {
  }

  // ----- the finished function -----

  lemma {:induction false} WalkPath(c: Code, pre: Edges, succ: Edges, p: seq<Block>, b: Block)
    requires Complete(c, pre, succ)
    ensures CodeWalk(c, p, 0, b) <==> PathTo(FuncOf(c, pre, succ).graph, p, b)
  {
    hide Certified;
    var g := FuncOf(c, pre, succ).graph;
    forall u, v ensures Goes(c, u, v) <==> Edge(g, u, v) {
      InBlocks(c, pre, succ, u);
    }
  }

  /** From the entry, exactly the blocks that are not dead are reached. */
  lemma ReachedExactly(c: Code, pre: Edges, succ: Edges, dead: set<Block>, b: Block)
    requires Complete(c, pre, succ) && Flow(StartCode(), c, dead) && 0 <= b < c.count
    ensures Reachable(FuncOf(c, pre, succ).graph, b) <==> b !in dead
  {
    hide Certified, Mirrored, FuncOf;
    var g := FuncOf(c, pre, succ).graph;
    if b !in dead {
      if b == 0 {
        LeadsSelf(c, 0);
      }
      var p :| CodeWalk(c, p, 0, b);
      WalkPath(c, pre, succ, p, b);
    }
    if Reachable(g, b) {
      var p :| PathTo(g, p, b);
      WalkPath(c, pre, succ, p, b);
      NeverDead(c, dead, p, b);
    }
  }

  lemma {:induction false} NeverDead(c: Code, dead: set<Block>, p: seq<Block>, b: Block)
    requires Flow(StartCode(), c, dead) && CodeWalk(c, p, 0, b) && forall u, v | Goes(c, u, v) :: 0 <= u < c.count
    ensures b !in dead
    decreases |p|
  {
    if |p| > 1 {
      var u := p[|p| - 2];
      assert Goes(c, p[|p| - 2], p[|p| - 2 + 1]);
      assert CodeWalk(c, p[..|p| - 1], 0, u);
      NeverDead(c, dead, p[..|p| - 1], u);
    }
  }

  // ----- what every visit keeps -----

  /** All blocks but the last are ended, what is reached is as the syntax says, and only loops go back. */
  ghost predicate Formed(c: Code, c': Code, exit: Exit, reached: bool, tight: bool) {
    Closed(c, c') && Shape(c, c', exit, reached, tight) && Ordered(c, c')
  }

  /** The code of an expression: every block of it is reached, and it goes on in its last. */
  ghost predicate Straight(c: Code, c': Code) {
    Formed(c, c', Going, true, true)
  }

  ghost predicate StmtFormed(c: Code, c': Code, s: Ast.Stmt) {
    Formed(c, c', ExitOf(s), AllReached(s), Sealed(s))
  }

  ghost predicate ListFormed(c: Code, c': Code, stmts: seq<Ast.Stmt>) {
    Formed(c, c', ExitOfAll(stmts), AllReachedList(stmts), SealedList(stmts))
  }

  lemma StraightRefl(c: Code)
    requires CodeOk(c) && c.cur !in c.term
    ensures Straight(c, c) && ListFormed(c, c, [])
  {
    hide Laid;
    LaidStart(c);
    FlowStart(c);
  }

  lemma StraightSame(c: Code, d: Code, e: Code)
    requires Straight(c, d) && e.count == d.count && e.term == d.term && e.cur == d.cur
    ensures Straight(c, e)
  {
    hide Shape, Ordered;
    ShapeSame(c, d, e, Going, true, true);
    LaidSame(c, d, e);
  }

  lemma StraightEmit(c: Code, d: Code, i: Instr)
    requires Straight(c, d)
    ensures Straight(c, Append(d, i))
  {
    StraightSame(c, d, Append(d, i));
  }

  lemma FormedAfter(c: Code, d: Code, e: Code, exit1: Exit, reached1: bool, tight1: bool, exit2: Exit, reached2: bool, tight2: bool)
    requires CodeOk(c) && CodeOk(d) && CodeOk(e) && Grew(c, d) && Grew(d, e) && d.cur !in d.term
    requires Formed(c, d, exit1, reached1, tight1) && Formed(d, e, exit2, reached2, tight2)
    ensures Formed(c, e, ExitAfter(exit1, exit2), reached1 && (exit1.Going? ==> reached2), tight1 && (exit1.Going? ==> tight2))
  {
    hide CodeOk, Grew, Closed, Shape, Ordered;
    ClosedTrans(c, d, e);
    LaidAfter(c, d, e);
    ShapeAfter(c, d, e, exit1, reached1, tight1, exit2, reached2, tight2);
  }

  lemma GuardStraight(base: Code, c: Code, v: Val, isVoid: bool)
    requires CodeOk(base) && CodeOk(c) && Grew(base, c) && c.cur !in c.term && Straight(base, c)
    requires CodeOk(Guarded(c, v, isVoid)) && Grew(c, Guarded(c, v, isVoid))
    ensures Straight(base, Guarded(c, v, isVoid))
  {
    hide CodeOk, Grew, Closed, Shape, Guarded, Ordered;
    GuardClosed(base, c, v, isVoid);
    GuardLaid(c, v, isVoid);
    LaidAfter(base, c, Guarded(c, v, isVoid));
    GuardShape(c, v, isVoid);
    ShapeAfter(base, c, Guarded(c, v, isVoid), Going, true, true, Going, true, true);
  }

  lemma LocateStraight(c: Code, g: Code, b: Binding, v: Val)
    requires Straight(c, g)
    ensures Straight(c, Located(g, b, v))
  {
    hide Straight;
    StraightSame(c, g, Located(g, b, v));
  }

  lemma StraightDecl(c: Code, d: Code, decl: Ast.Decl)
    requires Straight(c, d)
    ensures Straight(c, DeclCode(d, decl))
  {
    hide Straight;
    StraightSame(c, d, DeclCode(d, decl));
  }

  lemma StraightParam(c: Code, d: Code, i: nat)
    requires Straight(c, d)
    ensures Straight(c, ParamCode(d, i))
  {
    hide Straight;
    StraightSame(c, d, ParamCode(d, i));
  }

  lemma RetFormed(c: Code, d: Code, val: Option<Val>)
    requires CodeOk(c) && CodeOk(d) && Grew(c, d) && d.cur !in d.term && Straight(c, d)
    ensures Formed(c, Branch(d, Ret(val), d.cur), Stopped, true, true)
  {
    hide CodeOk, Grew, Closed, Shape, Branch, Ordered;
    RetClosed(c, d, val);
    LaidRet(c, d, val);
    ShapeRet(c, d, val, Going, true, true);
  }

  lemma ListFormedNext(c: Code, d: Code, e: Code, stmts: seq<Ast.Stmt>, s: Ast.Stmt)
    requires CodeOk(c) && CodeOk(d) && CodeOk(e) && Grew(c, d) && Grew(d, e) && d.cur !in d.term
    requires ListFormed(c, d, stmts) && StmtFormed(d, e, s)
    ensures ListFormed(c, e, stmts + [s])
  {
    hide CodeOk, Grew, Closed, Shape, Ordered;
    var all := stmts + [s];
    assert all[..|all| - 1] == stmts && all[|all| - 1] == s;
    FormedAfter(c, d, e, ExitOfAll(stmts), AllReachedList(stmts), SealedList(stmts), ExitOf(s), AllReached(s), Sealed(s));
  }

  /** What stands behind an end is not built. */
  lemma {:induction false} StoppedList(stmts: seq<Ast.Stmt>, k: nat)
    requires k <= |stmts| && ExitOfAll(stmts[..k]).Stopped?
    ensures ExitOfAll(stmts) == Stopped && (AllReachedList(stmts) <==> AllReachedList(stmts[..k])) && (SealedList(stmts) <==> SealedList(stmts[..k]))
    decreases |stmts|
  {
    if k == |stmts| {
      assert stmts[..k] == stmts;
    } else {
      var init := stmts[..|stmts| - 1];
      assert init[..k] == stmts[..k];
      StoppedList(init, k);
    }
  }

  lemma ListFormedStops(c: Code, d: Code, stmts: seq<Ast.Stmt>, k: nat)
    requires k <= |stmts| && ListFormed(c, d, stmts[..k]) && d.cur in d.term
    ensures ListFormed(c, d, stmts)
  {
    hide Closed, Ordered;
    assert ExitOfAll(stmts[..k]).Stopped?;
    StoppedList(stmts, k);
  }

  lemma CompoundFormed(c: Code, d: Code, e: Code, decls: seq<Ast.Decl>, stmts: seq<Ast.Stmt>)
    requires CodeOk(c) && CodeOk(d) && CodeOk(e) && Grew(c, d) && Grew(d, e) && d.cur !in d.term
    requires Straight(c, d) && ListFormed(d, e, stmts)
    ensures StmtFormed(c, e, Ast.Compound(decls, stmts))
  {
    hide CodeOk, Grew, Closed, Shape;
    FormedAfter(c, d, e, Going, true, true, ExitOfAll(stmts), AllReachedList(stmts), SealedList(stmts));
  }

  lemma IfFormed(c: Code, c1: Code, v: Val, c5: Code, cond: Ast.Expr, yes: Ast.Stmt)
    requires CodeOk(c) && CodeOk(c1) && Grew(c, c1) && Straight(c, c1) && c1.cur !in c1.term && c.cur !in c.term
    requires CodeOk(Tested(c1, v, false)) && CodeOk(c5) && Grew(Tested(c1, v, false), c5) && StmtFormed(Tested(c1, v, false), c5, yes)
    requires Tested(c1, v, false).count == c1.count + 2
    ensures StmtFormed(c, JoinTo(c5, c1.count + 1, c1.count + 1), Ast.If(cond, yes, None))
  {
    hide CodeOk, Grew, Closed, Shape, Tested, JoinTo, Ordered;
    var k := c1.count + 1;
    IfClosed(c, c1, v, c5);
    TestedIs(c1, v, false);
    JoinedShape(c, c1, Tested(c1, v, false), c5, k, k, ExitOf(yes), AllReached(yes), Sealed(yes));
    JoinedLaid(c, c1, Tested(c1, v, false), c5, k, k);
  }

  lemma ElseFormed(c: Code, c1: Code, v: Val, c5: Code, c7: Code, cond: Ast.Expr, yes: Ast.Stmt, no: Ast.Stmt)
    requires CodeOk(c) && CodeOk(c1) && Grew(c, c1) && Straight(c, c1) && c1.cur !in c1.term && CodeOk(Compared0(c1, v)) && CodeOk(c5) && CodeOk(c7)
    requires var t := Tested(c1, v, true); CodeOk(t) && Grew(t, c5) && StmtFormed(t, c5, yes) && t.count == c1.count + 3
    requires var c6 := JoinTo(c5, c1.count + 1, c1.count + 2); CodeOk(c6) && Grew(c6, c7) && StmtFormed(c6, c7, no)
    requires var d := JoinTo(c7, c1.count + 1, c1.count + 1); CodeOk(d) && Grew(c1, d)
    ensures StmtFormed(c, JoinTo(c7, c1.count + 1, c1.count + 1), Ast.If(cond, yes, Some(no)))
  {
    hide CodeOk, Grew, Closed, Shape, Tested, Compared0, JoinTo, Ordered;
    var k := c1.count + 1;
    var c6, d := JoinTo(c5, k, k + 1), JoinTo(c7, k, k);
    ElseClosed(c, c1, v, c5, c7);
    TestedIs(c1, v, true);
    ElseShape(c1, Tested(c1, v, true), c5, c6, c7, ExitOf(yes), AllReached(yes), Sealed(yes), ExitOf(no), AllReached(no), Sealed(no));
    BothLaid(c1, Tested(c1, v, true), c5, c6, c7);
    LaidAfter(c, c1, d);
    var s := Ast.If(cond, yes, Some(no));
    ShapeAfter(c, c1, d, Going, true, true, ExitOf(s), AllReached(s), Sealed(s));
  }

  /** The head of a loop is entered from the block in front of it. */
  lemma HeadEntered(c: Code, c3: Code)
    requires CodeOk(c) && CodeOk(Headed(c)) && CodeOk(c3) && c.cur !in c.term && Headed(c).count == c.count + 1 && Grew(Headed(c), c3)
    ensures forall p | Goes(c3, p, c.count) :: p == c.cur
  {
    hide Headed;
    HeadLaid(c);
    forall p | Goes(c3, p, c.count) ensures p == c.cur {
      GrewGoes(Headed(c), c3, p, c.count);
    }
  }

  lemma WhileFormed(c: Code, c3: Code, v: Val, c7: Code, cond: Ast.Expr, body: Ast.Stmt)
    requires CodeOk(c) && CodeOk(Headed(c)) && CodeOk(c3) && c.cur !in c.term && Headed(c).count == c.count + 1 && Grew(c, Headed(c))
    requires Headed(c).cur !in Headed(c).term && CodeOk(c7) && c.count < c3.count
    requires Grew(Headed(c), c3) && Straight(Headed(c), c3) && c3.cur !in c3.term
    requires var t := Tested(c3, v, false); CodeOk(t) && Grew(t, c7) && StmtFormed(t, c7, body) && t.count == c3.count + 2
    ensures StmtFormed(c, JoinTo(c7, c.count, c3.count + 1), Ast.While(cond, body))
  {
    hide CodeOk, Grew, Closed, Shape, Tested, Headed, JoinTo, Ordered;
    var h := Headed(c);
    WhileClosed(c, c3, v, c7);
    HeadShape(c);
    HeadLaid(c);
    HeadedIs(c);
    GrewTerms(h, c3);
    ShapeAfter(c, h, c3, Going, true, true, Going, true, true);
    LaidAfter(c, h, c3);
    GrewTrans(c, h, c3);
    TestedIs(c3, v, false);
    HeadEntered(c, c3);
    JoinedLaid(c, c3, Tested(c3, v, false), c7, c.count, c3.count + 1);
    JoinedShape(c, c3, Tested(c3, v, false), c7, c.count, c3.count + 1, ExitOf(body), AllReached(body), Sealed(body));
  }

  // ----- reducible -----

  /** Without the edges to blocks that dominate where they come from, there are no cycles. */
  ghost predicate Reducible(g: Graph) {
    exists order :: OrderedBy(g, order)
  }

  ghost predicate OrderedBy(g: Graph, order: seq<Block>) {
    NoDuplicates(order) && forall u, v | Edge(g, u, v) :: Before(order, u, v) || Dominates(g, v, u)
  }

  /** A path to a block of a loop passes the loop's head. */
  lemma {:induction false} PathPassesHead(c: Code, pre: Edges, succ: Edges, b: Back, p: seq<Block>, x: Block)
    requires Complete(c, pre, succ) && BackOk(c, b, 1) && b.head <= x < b.end && PathTo(FuncOf(c, pre, succ).graph, p, x)
    ensures b.head in p
    decreases |p|
  {
    var g := FuncOf(c, pre, succ).graph;
    var n := |p| - 1;
    if x != b.head {
      assert n > 0;
      assert Edge(g, p[n - 1], p[n - 1 + 1]);
      InBlocks(c, pre, succ, p[n - 1]);
      assert Goes(c, p[n - 1], x);
      PathPrefix(g, p, x, n - 1);
      PathPassesHead(c, pre, succ, b, p[..n], p[n - 1]);
    }
  }

  /** The order of the builder is one: branches go forward in it, or to a dominator. */
  lemma BuiltForward(c: Code, pre: Edges, succ: Edges, order: seq<Block>, backs: set<Back>)
    requires Complete(c, pre, succ) && Laid(StartCode(), c, order, backs)
    ensures OrderedBy(FuncOf(c, pre, succ).graph, [0] + order)
  {
    hide Certified, Mirrored, Before, BackOk;
    var g := FuncOf(c, pre, succ).graph;
    var all := [0] + order;
    forall u, v | Edge(g, u, v) ensures Before(all, u, v) || Dominates(g, v, u) {
      InBlocks(c, pre, succ, u);
      assert g.succ[u] == Targets(c.term[u]) by {
        FuncWellFormed(c, pre, succ);
      }
      assert Goes(c, u, v);
      if !Before(all, u, v) {
        var k :| Back(u, v, k) in backs;
        BackDominates(c, pre, succ, Back(u, v, k));
      }
    }
    forall i, j | 0 <= i < j < |all| ensures all[i] != all[j] {
      assert all[j] == order[j - 1] && order[j - 1] in order;
    }
  }

  lemma BuiltReducible(c: Code, pre: Edges, succ: Edges)
    requires Complete(c, pre, succ) && Ordered(StartCode(), c)
    ensures Reducible(FuncOf(c, pre, succ).graph)
  {
    hide Complete, Laid, OrderedBy;
    var order, backs :| Laid(StartCode(), c, order, backs);
    BuiltForward(c, pre, succ, order, backs);
  }

  /** The head of a loop dominates the block that goes back to it. */
  lemma BackDominates(c: Code, pre: Edges, succ: Edges, b: Back)
    requires Complete(c, pre, succ) && BackOk(c, b, 1)
    ensures Dominates(FuncOf(c, pre, succ).graph, b.head, b.from)
  {
    hide Complete, Goes;
    forall p | PathTo(FuncOf(c, pre, succ).graph, p, b.from) ensures b.head in p {
      PathPassesHead(c, pre, succ, b, p, b.from);
    }
  }
}
