/** The order in which the builder comes to the blocks: branches go forward in it, except from
    the end of a loop's body back to the block that computes the loop's condition. */
module Layout {
  import opened Common
  import opened Cfg
  import opened Ir
  import opened Building
  import opened IndexCode
  import opened StmtCode
  import opened ControlCode

  ghost predicate Goes(c: Code, u: Block, v: Block) {
    u in c.term && v in Targets(c.term[u])
  }

  ghost predicate Before(s: seq<Block>, u: Block, v: Block) {
    exists i, j :: 0 <= i < j < |s| && s[i] == u && s[j] == v
  }

  /** A branch back to a loop head, and where the blocks of the loop end. */
  datatype Back = Back(from: Block, head: Block, end: Block)

  /** The head is branched to from one block in front of it, and from the end of the loop. */
  ghost predicate HeadOk(c: Code, b: Back) {
    b.from in c.term && c.term[b.from] == Br(b.head) && exists o :: EntersHead(c, b, o)
  }

  ghost predicate EntersHead(c: Code, b: Back, o: Block) {
    o < b.head && o in c.term && c.term[o] == Br(b.head) && forall p | Goes(c, p, b.head) :: p == o || p == b.from
  }

  /** The blocks of the loop are entered through its head only. */
  ghost predicate BackOk(c: Code, b: Back, low: Block) {
    && low <= b.head <= b.from < b.end <= c.count && Goes(c, b.from, b.head) && HeadOk(c, b)
    && forall p, q | Goes(c, p, q) && b.head < q < b.end :: b.head <= p < b.end
  }

  ghost predicate IsBack(backs: set<Back>, u: Block, v: Block) {
    exists k :: Back(u, v, k) in backs
  }

  /** From c to c' the new blocks have been come to in this order. */
  ghost predicate Laid(c: Code, c': Code, order: seq<Block>, backs: set<Back>) {
    && Lists(order, c.count, c'.count)
    && (forall u, v | Goes(c', u, v) && (u == c.cur || c.count <= u) :: Before([c.cur] + order, u, v) || IsBack(backs, u, v))
    && (forall b | b in backs :: BackOk(c', b, c.count))
    && c'.cur == ([c.cur] + order)[|order|]
  }

  ghost predicate Ordered(c: Code, c': Code) {
    exists order, backs :: Laid(c, c', order, backs)
  }

  /** Blocks that have an end keep it. */
  lemma GrewTerms(c: Code, c': Code)
    requires CodeOk(c) && Grew(c, c')
    ensures forall b | b in c.term :: b in c'.term && c'.term[b] == c.term[b]
    ensures forall b | b in c'.term && b < c.count && b != c.cur && 0 <= b :: b in c.term
  {
  }

  // ----- sequences -----

  lemma BeforeIn(a: seq<Block>, s: seq<Block>, b: seq<Block>, u: Block, v: Block)
    requires Before(s, u, v)
    ensures Before(a + s + b, u, v)
  {
    var i, j :| 0 <= i < j < |s| && s[i] == u && s[j] == v;
    var all := a + s + b;
    assert all[|a| + i] == u && all[|a| + j] == v;
  }

  lemma BeforeAcross(a: seq<Block>, b: seq<Block>, u: Block, v: Block)
    requires u in a && v in b
    ensures Before(a + b, u, v)
  {
    var i :| 0 <= i < |a| && a[i] == u;
    var j :| 0 <= j < |b| && b[j] == v;
    assert (a + b)[i] == u && (a + b)[|a| + j] == v;
  }

  /** In a list of two parts and a last block. */
  lemma BeforeParts(a: seq<Block>, b: seq<Block>, n: Block, u: Block, v: Block)
    requires Before(a, u, v) || Before(b, u, v) || (u in a && (v in b || v == n)) || (u in b && v == n)
    ensures Before(a + b + [n], u, v)
  {
    hide Before;
    if Before(a, u, v) {
      BeforeIn([], a, b + [n], u, v);
      assert [] + a + (b + [n]) == a + b + [n];
    } else if Before(b, u, v) {
      BeforeIn(a, b, [n], u, v);
    } else if u in a {
      BeforeAcross(a, b + [n], u, v);
      assert a + (b + [n]) == a + b + [n];
    } else {
      BeforeAcross(a + b, [n], u, v);
    }
  }

  lemma BackIn(some: set<Back>, all: set<Back>, u: Block, v: Block)
    requires IsBack(some, u, v) && forall b | b in some :: b in all
    ensures IsBack(all, u, v)
  {
    var k :| Back(u, v, k) in some;
    assert Back(u, v, k) in all;
  }

  lemma LaidEdge(c: Code, c': Code, order: seq<Block>, backs: set<Back>, u: Block, v: Block)
    requires Laid(c, c', order, backs)
    ensures Goes(c', u, v) && (u == c.cur || c.count <= u) ==> Before([c.cur] + order, u, v) || IsBack(backs, u, v)
    ensures c'.cur in [c.cur] + order && forall b :: b in order <==> c.count <= b < c'.count
  {
    hide Before, BackOk, Goes, IsBack;
    assert ([c.cur] + order)[|order|] in [c.cur] + order;
  }

  /** The order is of exactly these blocks. */
  ghost predicate Lists(order: seq<Block>, low: Block, high: Block) {
    (forall b :: b in order <==> low <= b < high) && NoDuplicates(order)
  }

  lemma ListsJoin(o1: seq<Block>, o2: seq<Block>, low: Block, mid: Block, high: Block)
    requires Lists(o1, low, mid) && Lists(o2, mid, high) && low <= mid <= high
    ensures Lists(o1 + o2, low, high)
  {
    var o := o1 + o2;
    forall b ensures b in o <==> low <= b < high {
      assert b in o <==> b in o1 || b in o2;
    }
    forall i, j | 0 <= i < j < |o| ensures o[i] != o[j] {
      assert i < |o1| ==> o[i] in o1;
      assert j >= |o1| ==> o[j] in o2;
      assert i >= |o1| ==> o[i] == o2[i - |o1|] && o[j] == o2[j - |o1|];
    }
  }

  /** A block, what comes after it, and the block behind. */
  lemma ListsAround(o: seq<Block>, x: Block, low: Block, high: Block)
    requires Lists(o, low, high) && low == x + 2 && low <= high
    ensures Lists([x] + o + [x + 1], x, high)
  {
    var s := [x] + o + [x + 1];
    forall b ensures b in s <==> x <= b < high {
      assert b in s <==> b == x || b in o || b == x + 1;
    }
    forall i, j | 0 <= i < j < |s| ensures s[i] != s[j] {
      assert 0 < i <= |o| ==> s[i] == o[i - 1] && s[i] in o;
      assert 0 < j <= |o| ==> s[j] == o[j - 1] && s[j] in o;
    }
  }

  // ----- one piece after another -----

  lemma LaidStart(c: Code)
    requires CodeOk(c) && c.cur !in c.term
    ensures Ordered(c, c)
  {
    assert Laid(c, c, [], {});
  }

  lemma LaidSame(c: Code, d: Code, e: Code)
    requires Ordered(c, d) && e.count == d.count && e.term == d.term && e.cur == d.cur
    ensures Ordered(c, e)
  {
    var order, backs :| Laid(c, d, order, backs);
    assert forall u, v :: Goes(d, u, v) <==> Goes(e, u, v);
    forall b | b in backs ensures BackOk(e, b, c.count) {
      HeadKept(d, e, b);
    }
    assert Laid(c, e, order, backs);
  }

  /** Branches to the head are those that there were. */
  lemma HeadKept(d: Code, e: Code, b: Back)
    requires HeadOk(d, b) && (forall u | u in d.term :: u in e.term && e.term[u] == d.term[u]) && forall p | Goes(e, p, b.head) :: Goes(d, p, b.head)
    ensures HeadOk(e, b)
  {
    var o :| EntersHead(d, b, o);
    assert EntersHead(e, b, o);
  }

  /** A return adds no branch. */
  lemma LaidRet(c: Code, d: Code, v: Option<Val>)
    requires Ordered(c, d) && d.cur !in d.term
    ensures Ordered(c, Branch(d, Ret(v), d.cur))
  {
    var e := Branch(d, Ret(v), d.cur);
    var order, backs :| Laid(c, d, order, backs);
    assert forall u, v :: Goes(d, u, v) <==> Goes(e, u, v);
    forall b | b in backs ensures BackOk(e, b, c.count) {
      HeadKept(d, e, b);
    }
    assert Laid(c, e, order, backs);
  }

  /** A loop stays entered through its head when newer blocks are added. */
  lemma BackKept(d: Code, e: Code, b: Back, low: Block)
    requires CodeOk(d) && Grew(d, e) && d.cur !in d.term && BackOk(d, b, low)
    ensures BackOk(e, b, low)
  {
    GrewTerms(d, e);
    HeadKept(d, e, b);
    forall p, q | Goes(e, p, q) && b.head < q < b.end ensures b.head <= p < b.end {
      assert p in d.term;
      assert Goes(d, p, q);
    }
  }

  lemma JoinOrder(x: Block, o1: seq<Block>, y: Block, o2: seq<Block>)
    requires y == ([x] + o1)[|o1|]
    ensures [x] + (o1 + o2) == ([x] + o1)[..|o1|] + ([y] + o2)
    ensures [x] + (o1 + o2) == ([x] + o1) + o2
  {
  }

  lemma LaidAfter(c: Code, d: Code, e: Code)
    requires CodeOk(c) && CodeOk(d) && CodeOk(e) && Grew(c, d) && Grew(d, e) && d.cur !in d.term
    requires Ordered(c, d) && Ordered(d, e)
    ensures Ordered(c, e)
  {
    hide CodeOk, Goes, Before;
    var o1, b1 :| Laid(c, d, o1, b1);
    var o2, b2 :| Laid(d, e, o2, b2);
    forall b | b in b1 + b2 ensures BackOk(e, b, c.count) {
      if b in b1 {
        BackKept(d, e, b, c.count);
      }
    }
    JoinOrder(c.cur, o1, d.cur, o2);
    GrewCounts(c, d);
    GrewCounts(d, e);
    ListsJoin(o1, o2, c.count, d.count, e.count);
    forall u, v | Goes(e, u, v) && (u == c.cur || c.count <= u) ensures Before([c.cur] + (o1 + o2), u, v) || IsBack(b1 + b2, u, v) {
      EdgeAfter(c, d, e, o1, b1, o2, b2, u, v);
    }
    assert Laid(c, e, o1 + o2, b1 + b2);
  }

  lemma GrewCounts(c: Code, d: Code)
    requires Grew(c, d)
    ensures c.count <= d.count
  {
  }

  lemma EdgeAfter(c: Code, d: Code, e: Code, o1: seq<Block>, b1: set<Back>, o2: seq<Block>, b2: set<Back>, u: Block, v: Block)
    requires CodeOk(c) && CodeOk(d) && CodeOk(e) && Grew(c, d) && Grew(d, e) && d.cur !in d.term
    requires Laid(c, d, o1, b1) && Laid(d, e, o2, b2) && Goes(e, u, v) && (u == c.cur || c.count <= u)
    ensures Before([c.cur] + (o1 + o2), u, v) || IsBack(b1 + b2, u, v)
  {
    hide Before;
    GrewTerms(d, e);
    JoinOrder(c.cur, o1, d.cur, o2);
    var all := [c.cur] + (o1 + o2);
    if u == d.cur || d.count <= u {
      if Before([d.cur] + o2, u, v) {
        BeforeIn(([c.cur] + o1)[..|o1|], [d.cur] + o2, [], u, v);
        assert ([c.cur] + o1)[..|o1|] + ([d.cur] + o2) + [] == all;
      } else {
        var k :| Back(u, v, k) in b2;
        assert Back(u, v, k) in b1 + b2;
      }
    } else {
      assert Goes(d, u, v);
      if Before([c.cur] + o1, u, v) {
        BeforeIn([], [c.cur] + o1, o2, u, v);
        assert [] + ([c.cur] + o1) + o2 == all;
      } else {
        var k :| Back(u, v, k) in b1;
        assert Back(u, v, k) in b1 + b2;
      }
    }
  }

  // ----- the pieces -----

  lemma GuardLaid(c: Code, v: Val, isVoid: bool)
    requires CodeOk(c) && c.cur !in c.term
    ensures Ordered(c, Guarded(c, v, isVoid))
  {
    hide AvailNow;
    var g := Guarded(c, v, isVoid);
    var x, k := c.count, c.count + 1;
    CreateCount(c, 2);
    assert Create(c, 2).term == c.term && Create(c, 2).cur == c.cur;
    assert g.term == c.term[c.cur := CondBr(Res(c.nextId), x, k)][x := DefaultRet(isVoid)];
    var s := [c.cur] + [x, k];
    assert s[0] == c.cur && s[1] == x && s[2] == k;
    assert Before(s, c.cur, x) && Before(s, c.cur, k);
    assert Laid(c, g, [x, k], {});
  }

  lemma HeadLaid(c: Code)
    requires CodeOk(c) && c.cur !in c.term && Headed(c).count == c.count + 1
    ensures Ordered(c, Headed(c)) && Headed(c).term == c.term[c.cur := Br(c.count)]
  {
    hide AvailNow;
    var h := Headed(c);
    assert Create(c, 1).term == c.term && Create(c, 1).cur == c.cur;
    var s := [c.cur] + [c.count];
    assert s[0] == c.cur && s[1] == c.count;
    assert Before(s, c.cur, c.count);
    assert Laid(c, h, [c.count], {});
  }

  /** One branch, from the test to where it joins: back to a loop head, or on to the block behind. */
  ghost predicate Branched(c: Code, c1: Code, t: Code, c5: Code, target: Block, next: Block) {
    && CodeOk(c) && CodeOk(c1) && CodeOk(t) && CodeOk(c5) && Grew(c, c1) && Grew(t, c5)
    && c.cur !in c.term && c1.cur !in c1.term && t.cur == c1.count && t.count > c1.count + 1 && next == c1.count + 1
    && t.term == c1.term[c1.cur := CondBr(Res(c1.nextId), c1.count, next)] && t.count == c1.count + 2
    && (target == next || (c.count == target < c1.count && c.cur in c1.term && c1.term[c.cur] == Br(target) && forall p | Goes(c1, p, target) :: p == c.cur))
  }

  lemma JoinTerms(c5: Code, target: Block, next: Block)
    ensures var d := JoinTo(c5, target, next);
            && d.count == c5.count && d.cur == next && (forall b | b in c5.term :: b in d.term && d.term[b] == c5.term[b])
            && (forall b | b in d.term && b != c5.cur :: b in c5.term)
            && (c5.cur !in c5.term ==> c5.cur in d.term && d.term[c5.cur] == Br(target))
  {
  }

  /** Every edge of the finished branch is one of these. */
  lemma JoinedEdges(c: Code, c1: Code, t: Code, c5: Code, target: Block, next: Block, u: Block, v: Block)
    requires Branched(c, c1, t, c5, target, next) && Goes(JoinTo(c5, target, next), u, v)
    ensures || (Goes(c1, u, v) && v < c1.count && u < c1.count)
            || (u == c1.cur && (v == c1.count || v == next))
            || (Goes(c5, u, v) && (u == t.cur || t.count <= u < c5.count) && t.count <= v < c5.count)
            || (u == c5.cur && v == target && c5.cur !in c5.term)
  {
    JoinTerms(c5, target, next);
    GrewTerms(t, c5);
    if u in c5.term && u < t.count && u != t.cur {
      assert u in t.term;
      assert u in c1.term || u == c1.cur;
    }
  }

  lemma CurPlace(t: Code, c5: Code)
    requires CodeOk(t) && CodeOk(c5) && Grew(t, c5)
    ensures (c5.cur == t.cur || t.count <= c5.cur < c5.count) && t.count <= c5.count && 0 <= t.cur < t.count
  {
  }

  ghost function JoinedOrder(o1: seq<Block>, x: Block, o5: seq<Block>, next: Block): seq<Block> {
    o1 + ([x] + o5 + [next])
  }

  ghost function JoinedBacks(b1: set<Back>, b5: set<Back>, c5: Code, target: Block, next: Block): set<Back> {
    b1 + b5 + if c5.cur !in c5.term && target != next then {Back(c5.cur, target, c5.count)} else {}
  }

  lemma JoinedHeadOk(c: Code, c1: Code, t: Code, c5: Code, target: Block, next: Block, b1: set<Back>, b5: set<Back>, b: Back)
    requires Branched(c, c1, t, c5, target, next) && b in JoinedBacks(b1, b5, c5, target, next)
    requires (forall k | k in b1 :: BackOk(c1, k, c.count)) && (forall k | k in b5 :: BackOk(c5, k, t.count))
    ensures HeadOk(JoinTo(c5, target, next), b)
  {
    hide JoinTo, Grew;
    var d := JoinTo(c5, target, next);
    JoinTerms(c5, target, next);
    CurPlace(t, c5);
    GrewTerms(t, c5);
    assert forall u | u in c1.term :: u in d.term && d.term[u] == c1.term[u];
    forall p | Goes(d, p, b.head)
      ensures b in b1 ==> Goes(c1, p, b.head)
      ensures b in b5 ==> Goes(c5, p, b.head)
      ensures b !in b1 && b !in b5 ==> p == c.cur || p == c5.cur
    {
      JoinedEdges(c, c1, t, c5, target, next, p, b.head);
    }
    if b in b1 {
      HeadKept(c1, d, b);
    } else if b in b5 {
      HeadKept(c5, d, b);
    } else {
      assert EntersHead(d, b, c.cur);
    }
  }

  lemma JoinedBackOk(c: Code, c1: Code, t: Code, c5: Code, target: Block, next: Block, b1: set<Back>, b5: set<Back>, b: Back)
    requires Branched(c, c1, t, c5, target, next) && b in JoinedBacks(b1, b5, c5, target, next)
    requires (forall k | k in b1 :: BackOk(c1, k, c.count)) && (forall k | k in b5 :: BackOk(c5, k, t.count))
    ensures BackOk(JoinTo(c5, target, next), b, c.count)
  {
    hide JoinTo, HeadOk;
    var d := JoinTo(c5, target, next);
    JoinTerms(c5, target, next);
    CurPlace(t, c5);
    GrewTerms(t, c5);
    JoinedHeadOk(c, c1, t, c5, target, next, b1, b5, b);
    forall p, q | Goes(d, p, q) && b.head < q < b.end ensures b.head <= p < b.end {
      JoinedEdges(c, c1, t, c5, target, next, p, q);
      if b !in b1 && b !in b5 && Goes(c1, p, q) {
        assert p != c.cur && c.count <= p by {
          GrewTerms(c, c1);
        }
      }
    }
  }

  lemma JoinedBefore(c: Code, c1: Code, t: Code, c5: Code, target: Block, next: Block, o1: seq<Block>, b1: set<Back>, o5: seq<Block>, b5: set<Back>,
                     u: Block, v: Block)
    requires Branched(c, c1, t, c5, target, next) && Laid(c, c1, o1, b1) && Laid(t, c5, o5, b5)
    requires Goes(JoinTo(c5, target, next), u, v) && (u == c.cur || c.count <= u)
    ensures var order := [c.cur] + JoinedOrder(o1, t.cur, o5, next);
            Before(order, u, v) || IsBack(JoinedBacks(b1, b5, c5, target, next), u, v)
  {
    hide Before, JoinTo, Laid, Grew, CodeOk, Goes, IsBack;
    var first, second, backs := [c.cur] + o1, [t.cur] + o5, JoinedBacks(b1, b5, c5, target, next);
    assert [c.cur] + JoinedOrder(o1, t.cur, o5, next) == first + second + [next];
    JoinedEdges(c, c1, t, c5, target, next, u, v);
    CurPlace(t, c5);
    LaidEdge(c, c1, o1, b1, u, v);
    LaidEdge(t, c5, o5, b5, u, v);
    if IsBack(b1, u, v) {
      BackIn(b1, backs, u, v);
    } else if IsBack(b5, u, v) {
      BackIn(b5, backs, u, v);
    } else if u == c5.cur && v == target && c5.cur !in c5.term && target != next {
      BackLast(b1 + b5, c5, target);
    } else {
      BeforeParts(first, second, next, u, v);
    }
  }

  lemma BackLast(some: set<Back>, c5: Code, target: Block)
    ensures IsBack(some + {Back(c5.cur, target, c5.count)}, c5.cur, target)
  {
    assert Back(c5.cur, target, c5.count) in some + {Back(c5.cur, target, c5.count)};
  }

  /** An if without else, and a loop. */
  lemma JoinedLaid(c: Code, c1: Code, t: Code, c5: Code, target: Block, next: Block)
    requires Branched(c, c1, t, c5, target, next) && Ordered(c, c1) && Ordered(t, c5)
    ensures Ordered(c, JoinTo(c5, target, next))
  {
    hide Before, JoinTo, BackOk, Grew, CodeOk;
    var o1, b1 :| Laid(c, c1, o1, b1);
    var o5, b5 :| Laid(t, c5, o5, b5);
    var d, order, backs := JoinTo(c5, target, next), JoinedOrder(o1, t.cur, o5, next), JoinedBacks(b1, b5, c5, target, next);
    JoinTerms(c5, target, next);
    CurPlace(t, c5);
    GrewCounts(c, c1);
    ListsAround(o5, t.cur, t.count, c5.count);
    ListsJoin(o1, [t.cur] + o5 + [next], c.count, c1.count, c5.count);
    forall b | b in backs ensures BackOk(d, b, c.count) {
      JoinedBackOk(c, c1, t, c5, target, next, b1, b5, b);
    }
    forall u, v | Goes(d, u, v) && (u == c.cur || c.count <= u) ensures Before([c.cur] + order, u, v) || IsBack(backs, u, v) {
      JoinedBefore(c, c1, t, c5, target, next, o1, b1, o5, b5, u, v);
    }
    assert Laid(c, d, order, backs);
  }

  // ----- if with else -----

  /** Both branches of an if, up to where they join. */
  ghost predicate BothBranched(c1: Code, t: Code, c5: Code, c6: Code, c7: Code) {
    && CodeOk(c1) && CodeOk(t) && CodeOk(c5) && CodeOk(c6) && CodeOk(c7) && c1.cur !in c1.term
    && t.cur == c1.count && t.count == c1.count + 3
    && t.term == c1.term[c1.cur := CondBr(Res(c1.nextId), c1.count, c1.count + 2)]
    && Grew(t, c5) && c6 == JoinTo(c5, c1.count + 1, c1.count + 2) && Grew(c6, c7)
  }

  /** Where the blocks of an if with else are. */
  lemma BothPlaces(c1: Code, t: Code, c5: Code, c6: Code, c7: Code)
    requires BothBranched(c1, t, c5, c6, c7)
    ensures var k := c1.count + 1;
            && c6.cur == k + 1 && c6.count == c5.count && c1.cur < c1.count && c5.count <= c7.count && t.count <= c5.count
            && (c5.cur == c1.count || t.count <= c5.cur < c5.count) && (c7.cur == k + 1 || c5.count <= c7.cur < c7.count)
            && k !in c5.term && k + 1 !in c5.term && k !in c7.term
  {
    hide Grew, JoinTo;
    var k := c1.count + 1;
    GrewTerms(t, c5);
    GrewTerms(c6, c7);
    CurPlace(t, c5);
    CurPlace(c6, c7);
    JoinTerms(c5, k, k + 1);
    assert k !in t.term && k + 1 !in t.term;
  }

  /** What the blocks of an if with else end in. */
  lemma BothTerms(c1: Code, t: Code, c5: Code, c6: Code, c7: Code)
    requires BothBranched(c1, t, c5, c6, c7)
    ensures var k := c1.count + 1;
            var d := JoinTo(c7, k, k);
            && d.count == c7.count && d.cur == k && k !in d.term
            && (forall b | b in c5.term :: b in d.term && d.term[b] == c5.term[b])
            && (forall b | b in c7.term :: b in d.term && d.term[b] == c7.term[b])
            && c1.cur in d.term && d.term[c1.cur] == CondBr(Res(c1.nextId), c1.count, c1.count + 2)
            && (c5.cur !in c5.term ==> c5.cur in d.term && d.term[c5.cur] == Br(k))
            && (c7.cur !in c7.term ==> c7.cur in d.term && d.term[c7.cur] == Br(k))
  {
    hide JoinTo;
    var k := c1.count + 1;
    BothPlaces(c1, t, c5, c6, c7);
    GrewTerms(t, c5);
    GrewTerms(c6, c7);
    JoinTerms(c5, k, k + 1);
    JoinTerms(c7, k, k);
    assert c1.cur in t.term;
  }

  /** Every edge of the finished if is one of these. */
  lemma BothEdges(c1: Code, t: Code, c5: Code, c6: Code, c7: Code, u: Block, v: Block)
    requires BothBranched(c1, t, c5, c6, c7)
    requires Goes(JoinTo(c7, c1.count + 1, c1.count + 1), u, v) && (u == c1.cur || c1.count <= u)
    ensures var k := c1.count + 1;
            || (u == c1.cur && (v == c1.count || v == k + 1))
            || (Goes(c5, u, v) && (u == c1.count || t.count <= u < c5.count) && t.count <= v < c5.count)
            || (Goes(c7, u, v) && (u == k + 1 || c5.count <= u < c7.count) && c5.count <= v < c7.count)
            || (v == k && u == c5.cur && c5.cur !in c5.term) || (v == k && u == c7.cur && c7.cur !in c7.term)
  {
    hide JoinTo, Grew, CodeOk;
    var k := c1.count + 1;
    BothPlaces(c1, t, c5, c6, c7);
    JoinGoes(c7, k, k, u, v);
    if Goes(c7, u, v) {
      GrewGoes(c6, c7, u, v);
      if Goes(c6, u, v) {
        JoinGoes(c5, k, k + 1, u, v);
        if Goes(c5, u, v) {
          GrewGoes(t, c5, u, v);
          TestGoes(c1, t, u, v);
        }
      }
    }
  }

  lemma JoinGoes(c: Code, target: Block, next: Block, u: Block, v: Block)
    requires Goes(JoinTo(c, target, next), u, v)
    ensures Goes(c, u, v) || (u == c.cur && u !in c.term && v == target)
  {
  }

  lemma GrewGoes(c: Code, c': Code, u: Block, v: Block)
    requires CodeOk(c) && CodeOk(c') && Grew(c, c') && Goes(c', u, v)
    ensures Goes(c, u, v) || ((u == c.cur || c.count <= u) && c.count <= v < c'.count)
    ensures u < c'.count
  {
    GrewTerms(c, c');
  }

  lemma TestGoes(c1: Code, t: Code, u: Block, v: Block)
    requires CodeOk(c1) && t.term == c1.term[c1.cur := CondBr(Res(c1.nextId), c1.count, c1.count + 2)]
    ensures Goes(t, u, v) && (u == c1.cur || c1.count <= u) ==> u == c1.cur && (v == c1.count || v == c1.count + 2)
  {
  }

  /** Older blocks branch to older blocks. */
  lemma BothOldEdges(c1: Code, t: Code, c5: Code, c6: Code, c7: Code, u: Block, v: Block)
    requires BothBranched(c1, t, c5, c6, c7)
    requires Goes(JoinTo(c7, c1.count + 1, c1.count + 1), u, v) && u != c1.cur && u < c1.count
    ensures v < c1.count
  {
    hide Grew, JoinTo;
    var k := c1.count + 1;
    BothPlaces(c1, t, c5, c6, c7);
    JoinTerms(c5, k, k + 1);
    JoinTerms(c7, k, k);
    GrewTerms(t, c5);
    GrewTerms(c6, c7);
    assert u in c7.term && u in c6.term && u in c5.term && u in t.term;
  }

  ghost function BothOrder(x: Block, o5: seq<Block>, o7: seq<Block>): seq<Block> {
    [x] + o5 + ([x + 2] + o7) + [x + 1]
  }

  lemma BothLists(x: Block, o5: seq<Block>, o7: seq<Block>, mid: Block, high: Block)
    requires Lists(o5, x + 3, mid) && Lists(o7, mid, high) && x + 3 <= mid <= high
    ensures Lists(BothOrder(x, o5, o7), x, high)
  {
    var s := BothOrder(x, o5, o7);
    forall b ensures b in s <==> x <= b < high {
      assert b in s <==> b == x || b in o5 || b == x + 2 || b in o7 || b == x + 1;
    }
    forall i, j | 0 <= i < j < |s| ensures s[i] != s[j] {
      BothAt(x, o5, o7, i);
      BothAt(x, o5, o7, j);
    }
  }

  lemma BothAt(x: Block, o5: seq<Block>, o7: seq<Block>, i: nat)
    requires i < |BothOrder(x, o5, o7)|
    ensures var s := BothOrder(x, o5, o7);
            && (i == 0 ==> s[i] == x) && (0 < i <= |o5| ==> s[i] == o5[i - 1] && s[i] in o5) && (i == |o5| + 1 ==> s[i] == x + 2)
            && (|o5| + 1 < i <= |o5| + 1 + |o7| ==> s[i] == o7[i - |o5| - 2] && s[i] in o7) && (i == |o5| + |o7| + 2 ==> s[i] == x + 1)
            && |s| == |o5| + |o7| + 3
  {
  }

  lemma BothHeadOk(c1: Code, t: Code, c5: Code, c6: Code, c7: Code, b5: set<Back>, b7: set<Back>, b: Back)
    requires BothBranched(c1, t, c5, c6, c7) && b in b5 + b7
    requires (forall k | k in b5 :: BackOk(c5, k, t.count)) && (forall k | k in b7 :: BackOk(c7, k, c6.count))
    ensures HeadOk(JoinTo(c7, c1.count + 1, c1.count + 1), b)
  {
    hide JoinTo, BothBranched, HeadOk;
    var d := JoinTo(c7, c1.count + 1, c1.count + 1);
    BothPlaces(c1, t, c5, c6, c7);
    BothTerms(c1, t, c5, c6, c7);
    BothCounts(c1, t, c5, c6, c7);
    forall p | Goes(d, p, b.head)
      ensures b in b5 ==> Goes(c5, p, b.head)
      ensures b !in b5 ==> Goes(c7, p, b.head)
    {
      if p == c1.cur || c1.count <= p {
        BothEdges(c1, t, c5, c6, c7, p, b.head);
      } else {
        BothOldEdges(c1, t, c5, c6, c7, p, b.head);
      }
    }
    if b in b5 {
      HeadKept(c5, d, b);
    } else {
      HeadKept(c7, d, b);
    }
  }

  lemma BothBackOk(c1: Code, t: Code, c5: Code, c6: Code, c7: Code, b5: set<Back>, b7: set<Back>, b: Back)
    requires BothBranched(c1, t, c5, c6, c7) && b in b5 + b7
    requires (forall k | k in b5 :: BackOk(c5, k, t.count)) && (forall k | k in b7 :: BackOk(c7, k, c6.count))
    ensures BackOk(JoinTo(c7, c1.count + 1, c1.count + 1), b, c1.count)
  {
    hide JoinTo, BothBranched, HeadOk;
    var d := JoinTo(c7, c1.count + 1, c1.count + 1);
    BothPlaces(c1, t, c5, c6, c7);
    BothTerms(c1, t, c5, c6, c7);
    BothCounts(c1, t, c5, c6, c7);
    BothHeadOk(c1, t, c5, c6, c7, b5, b7, b);
    forall p, q | Goes(d, p, q) && b.head < q < b.end ensures b.head <= p < b.end {
      if p == c1.cur || c1.count <= p {
        BothEdges(c1, t, c5, c6, c7, p, q);
      } else {
        BothOldEdges(c1, t, c5, c6, c7, p, q);
      }
    }
  }

  lemma BothCounts(c1: Code, t: Code, c5: Code, c6: Code, c7: Code)
    requires BothBranched(c1, t, c5, c6, c7)
    ensures t.cur == c1.count && t.count == c1.count + 3 && CodeOk(c1) && CodeOk(c5) && CodeOk(c7)
  {
  }

  lemma BothBefore(c1: Code, t: Code, c5: Code, c6: Code, c7: Code, o5: seq<Block>, b5: set<Back>, o7: seq<Block>, b7: set<Back>, u: Block, v: Block)
    requires BothBranched(c1, t, c5, c6, c7) && Laid(t, c5, o5, b5) && Laid(c6, c7, o7, b7)
    requires Goes(JoinTo(c7, c1.count + 1, c1.count + 1), u, v) && (u == c1.cur || c1.count <= u)
    ensures Before([c1.cur] + BothOrder(t.cur, o5, o7), u, v) || IsBack(b5 + b7, u, v)
  {
    hide Before, JoinTo, BothBranched, Laid, Goes, IsBack, CodeOk;
    var k := c1.count + 1;
    BothPlaces(c1, t, c5, c6, c7);
    BothCounts(c1, t, c5, c6, c7);
    BothEdges(c1, t, c5, c6, c7, u, v);
    LaidEdge(t, c5, o5, b5, u, v);
    LaidEdge(c6, c7, o7, b7, u, v);
    var five, seven := [t.cur] + o5, [k + 1] + o7;
    assert [c1.cur] + BothOrder(t.cur, o5, o7) == [c1.cur] + five + seven + [k];
    if IsBack(b5, u, v) {
      BackIn(b5, b5 + b7, u, v);
    } else if IsBack(b7, u, v) {
      BackIn(b7, b5 + b7, u, v);
    } else {
      if u != c1.cur && Before(five, u, v) {
        BeforeIn([c1.cur], five, [], u, v);
        assert [c1.cur] + five + [] == [c1.cur] + five;
      }
      if u == c1.cur && v == c1.count {
        BeforeAcross([c1.cur], five, u, v);
      }
      BeforeParts([c1.cur] + five, seven, k, u, v);
    }
  }

  lemma BothLaid(c1: Code, t: Code, c5: Code, c6: Code, c7: Code)
    requires BothBranched(c1, t, c5, c6, c7) && Ordered(t, c5) && Ordered(c6, c7)
    ensures Ordered(c1, JoinTo(c7, c1.count + 1, c1.count + 1))
  {
    hide Before, JoinTo, BackOk, BothBranched;
    var d := JoinTo(c7, c1.count + 1, c1.count + 1);
    var o5, b5 :| Laid(t, c5, o5, b5);
    var o7, b7 :| Laid(c6, c7, o7, b7);
    BothPlaces(c1, t, c5, c6, c7);
    BothTerms(c1, t, c5, c6, c7);
    BothCounts(c1, t, c5, c6, c7);
    BothLists(t.cur, o5, o7, c5.count, c7.count);
    forall b | b in b5 + b7 ensures BackOk(d, b, c1.count) {
      BothBackOk(c1, t, c5, c6, c7, b5, b7, b);
    }
    forall u, v | Goes(d, u, v) && (u == c1.cur || c1.count <= u)
      ensures Before([c1.cur] + BothOrder(t.cur, o5, o7), u, v) || IsBack(b5 + b7, u, v)
    {
      BothBefore(c1, t, c5, c6, c7, o5, b5, o7, b7, u, v);
    }
    assert Laid(c1, d, BothOrder(t.cur, o5, o7), b5 + b7);
  }
}
