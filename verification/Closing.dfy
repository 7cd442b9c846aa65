/** No block is forgotten: whatever a visit creates or leaves behind has a terminator,
    except for the block it ends in. */
module Closing {
  import opened Common
  import opened Cfg
  import opened Ir
  import opened Building
  import opened IndexCode
  import opened StmtCode
  import opened ControlCode

  ghost predicate Closed(c: Code, c': Code) {
    && (forall b | c.count <= b < c'.count && b != c'.cur :: b in c'.term)
    && (c'.cur != c.cur ==> c.cur in c'.term)
  }

  lemma ClosedTrans(c: Code, d: Code, e: Code)
    requires CodeOk(d) && Grew(c, d) && Grew(d, e) && Closed(c, d) && Closed(d, e)
    ensures Closed(c, e)
  {
  }

  lemma CreateMore(c: Code, n: nat, m: nat)
    requires CodeOk(c)
    ensures CodeOk(Create(c, n)) && Create(Create(c, n), m) == Create(c, n + m)
  {
    hide AvailNow;
    CreateOk(c, n);
    var d := Create(Create(c, n), m);
    assert forall b :: b in d.body <==> b in Create(c, n + m).body;
    assert d.body == Create(c, n + m).body;
    assert d.avail == Create(c, n + m).avail;
  }

  lemma GuardClosed(c: Code, d: Code, v: Val, isVoid: bool)
    requires CodeOk(c) && CodeOk(d) && Grew(c, d) && Closed(c, d) && d.cur !in d.term
    ensures Closed(c, Guarded(d, v, isVoid))
  {
    hide AvailNow;
    CreateCount(d, 2);
    var g := Guarded(d, v, isVoid);
    assert Create(d, 2).term == d.term && Create(d, 2).cur == d.cur;
    assert forall b :: b in g.term <==> b in d.term || b == d.cur || b == d.count;
  }

  /** The branches of an if. */
  lemma IfClosed(c: Code, c1: Code, v: Val, c5: Code)
    requires CodeOk(c) && CodeOk(c1) && Grew(c, c1) && Closed(c, c1) && c1.cur !in c1.term
    requires CodeOk(Tested(c1, v, false)) && Grew(Tested(c1, v, false), c5) && Closed(Tested(c1, v, false), c5)
    requires Tested(c1, v, false).count == c1.count + 2
    ensures Closed(c, JoinTo(c5, c1.count + 1, c1.count + 1))
  {
    hide AvailNow;
    TestedTerm(c1, v, false);
    AllButJoin(c, c1, Tested(c1, v, false), c5, c1.count + 1, c1.count + 1);
  }

  lemma TestedTerm(c1: Code, v: Val, hasElse: bool)
    requires CodeOk(c1) && (hasElse ==> CodeOk(Compared0(c1, v)))
    ensures var t := Tested(c1, v, hasElse); t.cur == c1.count && forall b :: b in t.term <==> b in c1.term || b == c1.cur
  {
    hide AvailNow;
    assert Create(c1, 2).term == c1.term && Create(c1, 2).cur == c1.cur;
  }

  /** When the first branch is done, only the block that is left and the one that comes next are open. */
  lemma AllButJoin(c: Code, c1: Code, t: Code, c5: Code, target: Block, next: Block)
    requires CodeOk(c) && CodeOk(c1) && CodeOk(t) && Grew(c, c1) && Closed(c, c1) && c1.count <= t.count && c1.cur !in c1.term
    requires t.cur == c1.count && forall b :: b in t.term <==> b in c1.term || b == c1.cur
    requires Grew(t, c5) && Closed(t, c5) && c1.count <= next < t.count && next != c1.count
    ensures forall b | c.count <= b < c5.count && b != next && (b < c1.count + 1 || b >= t.count) :: b in JoinTo(c5, target, next).term
    ensures c.cur in JoinTo(c5, target, next).term
  {
    var d := JoinTo(c5, target, next);
    forall b | c.count <= b < c5.count && b != next && (b < c1.count + 1 || b >= t.count) ensures b in d.term {
      if b < c1.count {
        assert b in t.term;
      }
    }
    assert c.cur in t.term;
  }

  lemma ElseClosed(c: Code, c1: Code, v: Val, c5: Code, c7: Code)
    requires CodeOk(c) && CodeOk(c1) && Grew(c, c1) && Closed(c, c1) && c1.cur !in c1.term && CodeOk(Compared0(c1, v))
    requires var t := Tested(c1, v, true); CodeOk(t) && Grew(t, c5) && Closed(t, c5) && t.count == c1.count + 3
    requires var c6 := JoinTo(c5, c1.count + 1, c1.count + 2); CodeOk(c6) && Grew(c6, c7) && Closed(c6, c7)
    ensures Closed(c, JoinTo(c7, c1.count + 1, c1.count + 1))
  {
    hide AvailNow, Tested, Compared0, Create;
    TestedTerm(c1, v, true);
    var k := c1.count + 1;
    var c6 := JoinTo(c5, k, k + 1);
    AllButJoin(c, c1, Tested(c1, v, true), c5, k, k + 1);
    var d := JoinTo(c7, k, k);
    forall b | c.count <= b < d.count && b != d.cur ensures b in d.term {
      if b < c6.count && b != k + 1 {
        assert b in c6.term;
      }
    }
  }

  lemma WhileClosed(c: Code, c3: Code, v: Val, c7: Code)
    requires CodeOk(c) && CodeOk(Headed(c)) && CodeOk(c3) && c.cur !in c.term && Headed(c).count == c.count + 1
    requires Grew(Headed(c), c3) && Closed(Headed(c), c3) && c3.cur !in c3.term
    requires var t := Tested(c3, v, false); CodeOk(t) && Grew(t, c7) && Closed(t, c7) && t.count == c3.count + 2
    ensures Closed(c, JoinTo(c7, c.count, c3.count + 1))
  {
    hide AvailNow, Tested, Headed;
    var h := Headed(c);
    HeadedTerm(c);
    TestedTerm(c3, v, false);
    AllButJoin(h, c3, Tested(c3, v, false), c7, c.count, c3.count + 1);
    assert c.cur in h.term;
    assert c.cur in c3.term && c.cur in Tested(c3, v, false).term;
  }

  lemma HeadedTerm(c: Code)
    requires CodeOk(c)
    ensures Headed(c).cur == c.count && forall b :: b in Headed(c).term <==> b in c.term || b == c.cur
  {
    hide AvailNow;
    assert Create(c, 1).term == c.term && Create(c, 1).cur == c.cur;
  }

  lemma RetClosed(c: Code, c1: Code, v: Option<Val>)
    requires Closed(c, c1)
    ensures Closed(c, Branch(c1, Ret(v), c1.cur))
  {
  }

  // ----- predecessors and successors -----

  type Edges = map<Block, seq<Block>>

  /** Every block of the list branches to v, and only one with two successors is there twice. */
  ghost predicate Sources(count: nat, succ: Edges, v: Block, list: seq<Block>) {
    && (forall u | u in list :: 0 <= u < count && u in succ && v in succ[u])
    && forall i, j | 0 <= i < j < |list| && list[i] == list[j] :: |succ[list[i]]| != 1
  }

  /** The predecessor and successor lists say what the terminators say. */
  ghost predicate Mirrored(count: nat, term: map<Block, Term>, pre: Edges, succ: Edges) {
    && (forall b | 0 <= b < count :: b in pre && b in succ && succ[b] == if b in term then Targets(term[b]) else [])
    && (forall u, v | 0 <= u < count && 0 <= v < count && v in succ[u] :: u in pre[v])
    && (forall v | 0 <= v < count :: Sources(count, succ, v, pre[v]))
  }

  lemma MirrorStart(pre: Edges, succ: Edges)
    requires pre == succ == map[0 := []]
    ensures Mirrored(1, map[], pre, succ)
  {
  }

  lemma MirrorCreate(c: Code, pre: Edges, succ: Edges)
    requires CodeOk(c) && Mirrored(c.count, c.term, pre, succ)
    ensures Mirrored(c.count + 1, c.term, pre[c.count := []], succ[c.count := []])
  {
    var n, pre', succ' := c.count, pre[c.count := []], succ[c.count := []];
    forall b | 0 <= b < n + 1 ensures b in pre' && b in succ' && succ'[b] == if b in c.term then Targets(c.term[b]) else [] {
      if b == n {
        assert b !in c.term;
      }
    }
    forall u, v | 0 <= u < n + 1 && 0 <= v < n + 1 && v in succ'[u] ensures u in pre'[v] {
      assert u < n && v in Targets(c.term[u]);
    }
    forall v | 0 <= v < n + 1 ensures Sources(n + 1, succ', v, pre'[v]) {
      if v < n {
        assert pre'[v] == pre[v] && Sources(n, succ, v, pre[v]);
      }
    }
  }

  /** The block has been added to the list, twice only if it has two targets. */
  ghost predicate ListedNow(list: seq<Block>, list': seq<Block>, cur: Block, t: Term) {
    list' == list || list' == list + [cur] || (|Targets(t)| != 1 && list' == list + [cur] + [cur])
  }

  /** One list, before and after. */
  lemma ListGrown(count: nat, succ: Edges, v: Block, list: seq<Block>, list': seq<Block>, cur: Block, t: Term)
    requires Sources(count, succ, v, list) && 0 <= cur < count && cur in succ && succ[cur] == []
    requires ListedNow(list, list', cur, t) && (cur in list' ==> v in Targets(t))
    ensures Sources(count, succ[cur := Targets(t)], v, list')
  {
    var succ' := succ[cur := Targets(t)];
    assert cur !in list;
    forall i, j | 0 <= i < j < |list'| && list'[i] == list'[j] ensures |succ'[list'[i]]| != 1 {
      assert list'[i] != cur ==> list'[i] in list && i < |list| && j < |list|;
    }
  }

  lemma OpenBlock(c: Code, pre: Edges, succ: Edges)
    requires CodeOk(c) && Mirrored(c.count, c.term, pre, succ) && c.cur !in c.term
    ensures c.cur in succ && succ[c.cur] == [] && forall v | 0 <= v < c.count :: v in pre && Sources(c.count, succ, v, pre[v]) && c.cur !in pre[v]
  {
  }

  lemma MirrorEdges(c: Code, t: Term, pre: Edges, succ: Edges, pre': Edges)
    requires CodeOk(c) && Mirrored(c.count, c.term, pre, succ) && c.cur !in c.term && forall b | b in Targets(t) :: 0 <= b < c.count
    requires forall b | 0 <= b < c.count :: b in pre' && forall u :: u in pre'[b] <==> u in pre[b] || (u == c.cur && b in Targets(t))
    requires forall b | 0 <= b < c.count :: ListedNow(pre[b], pre'[b], c.cur, t)
    ensures Mirrored(c.count, c.term[c.cur := t], pre', succ[c.cur := Targets(t)])
  {
    hide Sources, ListedNow;
    OpenBlock(c, pre, succ);
    forall v | 0 <= v < c.count ensures Sources(c.count, succ[c.cur := Targets(t)], v, pre'[v]) {
      ListGrown(c.count, succ, v, pre[v], pre'[v], c.cur, t);
    }
  }

  lemma MirrorCond(c: Code, v: Val, yes: Block, no: Block, pre: Edges, succ: Edges)
    requires CodeOk(c) && Mirrored(c.count, c.term, pre, succ) && c.cur !in c.term && 0 <= yes < c.count && 0 <= no < c.count
    ensures yes in pre && no in pre
    ensures var pre' := pre[yes := pre[yes] + [c.cur]];
            Mirrored(c.count, c.term[c.cur := CondBr(v, yes, no)], pre'[no := pre'[no] + [c.cur]], succ[c.cur := [yes, no]])
  {
    var pre' := pre[yes := pre[yes] + [c.cur]];
    MirrorEdges(c, CondBr(v, yes, no), pre, succ, pre'[no := pre'[no] + [c.cur]]);
  }
}
