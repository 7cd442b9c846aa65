/** The dead code pass on one function: blocks without predecessors go, then what nothing
    critical needs, until nothing changes. */
module DeadCodeElimination {
  import opened Common
  import opened Cfg
  import opened Ir
  import opened Marking
  import opened CleanedForm

  // ----- the instructions of a function, as a list -----

  function PhiItems(phis: seq<Phi>): seq<Item> {
    if phis == [] then [] else PhiItems(phis[..|phis| - 1]) + [PhiItem(phis[|phis| - 1])]
  }

  function InstrItems(instrs: seq<Instr>): seq<Item> {
    if instrs == [] then [] else InstrItems(instrs[..|instrs| - 1]) + [InstrItem(instrs[|instrs| - 1])]
  }

  type PhiMap = map<Block, seq<Phi>>
  type BodyMap = map<Block, seq<Instr>>
  type TermMap = map<Block, Term>

  ghost predicate Known(phis: PhiMap, body: BodyMap, term: TermMap, blocks: seq<Block>) {
    forall b | b in blocks :: b in phis && b in body && b in term
  }

  function Items(phis: PhiMap, body: BodyMap, term: TermMap, blocks: seq<Block>): seq<Item>
    requires Known(phis, body, term, blocks)
  {
    if blocks == [] then []
    else
      var b := blocks[|blocks| - 1];
      Items(phis, body, term, blocks[..|blocks| - 1]) + PhiItems(phis[b]) + InstrItems(body[b]) + [TermItem(term[b])]
  }

  lemma {:induction false} PhiItemsAre(phis: seq<Phi>, item: Item)
    ensures item in PhiItems(phis) <==> item.PhiItem? && item.phi in phis
    decreases |phis|
  {
    if phis != [] {
      var init, last := phis[..|phis| - 1], phis[|phis| - 1];
      PhiItemsAre(init, item);
      assert forall p :: p in phis <==> p in init || p == last;
    }
  }

  lemma {:induction false} InstrItemsAre(instrs: seq<Instr>, item: Item)
    ensures item in InstrItems(instrs) <==> item.InstrItem? && item.instr in instrs
    decreases |instrs|
  {
    if instrs != [] {
      var init, last := instrs[..|instrs| - 1], instrs[|instrs| - 1];
      InstrItemsAre(init, item);
      assert forall p :: p in instrs <==> p in init || p == last;
    }
  }

  lemma {:induction false} ItemsAre(f: Func, blocks: seq<Block>, item: Item)
    requires WellFormedFunc(f) && forall b | b in blocks :: b in f.graph.blocks
    ensures item in Items(f.phis, f.body, f.term, blocks) <==> exists b :: b in blocks && b in f.graph.blocks && ItemAt(f, b, item)
    decreases |blocks|
  {
    hide PhiItems, InstrItems, WellFormed;
    if blocks != [] {
      var init, last := blocks[..|blocks| - 1], blocks[|blocks| - 1];
      ItemsAre(f, init, item);
      PhiItemsAre(f.phis[last], item);
      InstrItemsAre(f.body[last], item);
      assert forall b :: b in blocks <==> b in init || b == last;
      assert item in Items(f.phis, f.body, f.term, blocks) <==> item in Items(f.phis, f.body, f.term, init) || ItemAt(f, last, item);
      if ItemAt(f, last, item) {
        assert last in blocks && last in f.graph.blocks && ItemAt(f, last, item);
      }
    }
  }

  /** The instruction that an operand points to. */
  function Definition(items: seq<Item>, id: Id): (d: Option<Item>)
    ensures d.Some? ==> d.value in items && Defined(d.value) == Some(id)
    ensures d.None? ==> forall item | item in items :: Defined(item) != Some(id)
  {
    if items == [] then None
    else if Defined(items[|items| - 1]) == Some(id) then Some(items[|items| - 1])
    else Definition(items[..|items| - 1], id)
  }

  function IdsOf(items: seq<Item>): (s: set<Id>)
    ensures forall item | item in items && Defined(item).Some? :: Defined(item).value in s
  {
    set item | item in items && Defined(item).Some? :: Defined(item).value
  }

  /** Every value has one definition. */
  ghost predicate OneDefinition(items: seq<Item>) {
    forall a, b | a in items && b in items && Defined(a).Some? && Defined(a) == Defined(b) :: a == b
  }

  // ----- the state of the marking -----

  ghost predicate OperandsMarked(items: seq<Item>, marked: set<Id>, item: Item, k: nat)
    requires k <= |Operands(item)|
  {
    forall i | 0 <= i < k && Operands(item)[i].Res? && Definition(items, Operands(item)[i].id).Some? :: Operands(item)[i].id in marked
  }

  /** What has been marked is needed; what is needed by it is marked or still on the list. */
  ghost predicate MarkState(items: seq<Item>, seen: seq<Item>, pure: Pures, marked: set<Id>, work: seq<Item>) {
    && (forall item | item in work :: item in items && Stays(pure, marked, item))
    && (forall item | item in seen && IsCritical(pure, item) :: Stays(pure, marked, item))
    && (forall item | item in items && Stays(pure, marked, item) && (item in seen || Defined(item).Some?) ::
          item in work || OperandsMarked(items, marked, item, |Operands(item)|))
    && marked <= IdsOf(items)
  }

  /** The closed sets, by the list of the instructions. */
  ghost predicate ClosedList(items: seq<Item>, pure: Pures, s: set<Id>) {
    && (forall item | item in items && IsCritical(pure, item) :: Stays(pure, s, item))
    && (forall item | item in items && Stays(pure, s, item) :: OperandsMarked(items, s, item, |Operands(item)|))
  }

  ghost predicate BelowClosed(items: seq<Item>, pure: Pures, marked: set<Id>) {
    forall s | ClosedList(items, pure, s) :: marked <= s
  }

  lemma ListIsFunc(f: Func, items: seq<Item>, pure: Pures, s: set<Id>)
    requires WellFormedFunc(f) && items == Items(f.phis, f.body, f.term, f.graph.blocks)
    ensures ClosedList(items, pure, s) <==> NeedsClosed(f, pure, s)
  {
    forall item ensures item in items <==> ItemIn(f, item) {
      ItemsAre(f, f.graph.blocks, item);
    }
    forall id ensures Definition(items, id).Some? <==> DefinedIn(f, id) {
      if DefinedIn(f, id) {
        var item :| ItemIn(f, item) && Defined(item) == Some(id);
        assert item in items;
      }
      if Definition(items, id).Some? {
        assert ItemIn(f, Definition(items, id).value);
      }
    }
    if ClosedList(items, pure, s) {
      forall item, v | ItemIn(f, item) && Stays(pure, s, item) && v in Operands(item) && v.Res? && DefinedIn(f, v.id) ensures v.id in s {
        assert item in items && OperandsMarked(items, s, item, |Operands(item)|);
        var i :| 0 <= i < |Operands(item)| && Operands(item)[i] == v;
      }
    }
    if NeedsClosed(f, pure, s) {
      forall item | item in items && Stays(pure, s, item) ensures OperandsMarked(items, s, item, |Operands(item)|) {
        assert ItemIn(f, item);
      }
    }
  }

  lemma {:induction false} MarkStart(items: seq<Item>, pure: Pures)
    ensures MarkState(items, [], pure, {}, []) && BelowClosed(items, pure, {})
  {
  }

  /** A critical instruction is put on the list. */
  lemma MarkCritical(items: seq<Item>, seen: seq<Item>, pure: Pures, marked: set<Id>, work: seq<Item>, item: Item)
    requires OneDefinition(items) && MarkState(items, seen, pure, marked, work) && BelowClosed(items, pure, marked) && item in items
    ensures var marked' := if Defined(item).Some? then marked + {Defined(item).value} else marked;
            IsCritical(pure, item) ==> MarkState(items, seen + [item], pure, marked', work + [item]) && BelowClosed(items, pure, marked')
    ensures !IsCritical(pure, item) ==> MarkState(items, seen + [item], pure, marked, work)
  {
    hide Definition, IsCritical;
    var marked' := if Defined(item).Some? then marked + {Defined(item).value} else marked;
    assert forall x :: x in seen + [item] <==> x in seen || x == item;
    if IsCritical(pure, item) {
      Weaker(items, marked, marked');
      assert forall x :: x in work + [item] <==> x in work || x == item;
    }
  }

  lemma Weaker(items: seq<Item>, marked: set<Id>, marked': set<Id>)
    requires marked <= marked'
    ensures forall item | OperandsMarked(items, marked, item, |Operands(item)|) :: OperandsMarked(items, marked', item, |Operands(item)|)
  {
  }

  /** While the operands of an instruction are looked at: it is not on the list any more. */
  ghost predicate Opening(items: seq<Item>, pure: Pures, marked: set<Id>, work: seq<Item>, now: Item, k: nat) {
    && now in items && Stays(pure, marked, now) && k <= |Operands(now)| && OperandsMarked(items, marked, now, k)
    && (forall item | item in work :: item in items && Stays(pure, marked, item))
    && (forall item | item in items && IsCritical(pure, item) :: Stays(pure, marked, item))
    && (forall item | item in items && Stays(pure, marked, item) ::
          item in work || item == now || OperandsMarked(items, marked, item, |Operands(item)|))
    && marked <= IdsOf(items)
  }

  lemma OpenNext(items: seq<Item>, pure: Pures, marked: set<Id>, work: seq<Item>)
    requires MarkState(items, items, pure, marked, work) && work != []
    ensures Opening(items, pure, marked, work[1..], work[0], 0)
  {
    assert work[0] in work;
    assert forall item :: item in work <==> item == work[0] || item in work[1..];
  }

  lemma OperandMarked(items: seq<Item>, pure: Pures, marked: set<Id>, work: seq<Item>, now: Item, k: nat)
    requires OneDefinition(items) && Opening(items, pure, marked, work, now, k) && BelowClosed(items, pure, marked) && k < |Operands(now)|
    ensures var v := Operands(now)[k];
            var def := if v.Res? then Definition(items, v.id) else None;
            if def.None? || v.id in marked then Opening(items, pure, marked, work, now, k + 1)
            else Opening(items, pure, marked + {v.id}, work + [def.value], now, k + 1) && BelowClosed(items, pure, marked + {v.id})
  {
    var v := Operands(now)[k];
    var def := if v.Res? then Definition(items, v.id) else None;
    if def.Some? && v.id !in marked {
      var marked' := marked + {v.id};
      Weaker(items, marked, marked');
      assert forall x :: x in work + [def.value] <==> x in work || x == def.value;
      forall s | ClosedList(items, pure, s) ensures marked' <= s {
        assert Stays(pure, s, now);
        assert OperandsMarked(items, s, now, |Operands(now)|);
      }
    }
  }

  lemma OpenEnd(items: seq<Item>, pure: Pures, marked: set<Id>, work: seq<Item>, now: Item)
    requires Opening(items, pure, marked, work, now, |Operands(now)|)
    ensures MarkState(items, items, pure, marked, work)
  {
  }

  lemma MarkedAll(f: Func, items: seq<Item>, pure: Pures, marked: set<Id>)
    requires WellFormedFunc(f) && items == Items(f.phis, f.body, f.term, f.graph.blocks)
    requires MarkState(items, items, pure, marked, []) && BelowClosed(items, pure, marked)
    ensures LeastNeeds(f, pure, marked)
  {
    hide Definition, Items, NeedsClosed, ClosedList, WellFormed;
    assert ClosedList(items, pure, marked) by {
      StateIsClosed(items, pure, marked);
    }
    ListIsFunc(f, items, pure, marked);
    forall s | NeedsClosed(f, pure, s) ensures marked <= s {
      ListIsFunc(f, items, pure, s);
    }
  }

  lemma StateIsClosed(items: seq<Item>, pure: Pures, marked: set<Id>)
    requires MarkState(items, items, pure, marked, [])
    ensures ClosedList(items, pure, marked)
  {
    hide Definition;
  }

  // ----- blocks without predecessors -----

  lemma ClearedFormed(g: Graph, g': Graph, gone: set<Block>)
    requires WellFormed(g) && Cleared(g, g', gone)
    ensures WellFormed(g')
  {
    hide Remaining;
    forall u, v | u in g'.blocks && v in g'.succ[u] ensures v in g'.blocks && u in g'.pre[v] {
      assert u in g.pre[v];
    }
  }

  lemma ClearedFunc(f: Func, g': Graph, gone: set<Block>)
    requires WellFormedFunc(f) && Cleared(f.graph, g', gone)
    ensures WellFormedFunc(f.(graph := g'))
    ensures forall item | ItemIn(f.(graph := g'), item) :: ItemIn(f, item)
  {
    hide Remaining, WellFormed;
    var f' := f.(graph := g');
    ClearedFormed(f.graph, g', gone);
    forall item | ItemIn(f', item) ensures ItemIn(f, item) {
      var b :| b in g'.blocks && ItemAt(f', b, item);
      assert b in f.graph.blocks && ItemAt(f, b, item);
    }
  }

  /** Runs do not depend on blocks that nothing branches to. */
  lemma {:induction false} ClearedRuns(f: Func, g': Graph, sem: Sem, args: seq<int>, n: nat)
    requires g'.entry == f.graph.entry
    ensures Run(f.(graph := g'), sem, args, n) == Run(f, sem, args, n)
  {
    if n > 0 {
      ClearedRuns(f, g', sem, args, n - 1);
    }
  }

  lemma ClearedSeenAs(pure: Pures, f: Func, g': Graph)
    requires g'.entry == f.graph.entry
    ensures SeenAs(pure, f, f.(graph := g'))
  {
    hide Run;
    forall sem: Sem, args: seq<int>, n: nat | Transparent(sem, pure)
      ensures SameSeen(pure, Run(f, sem, args, n), Run(f.(graph := g'), sem, args, n))
    {
      ClearedRuns(f, g', sem, args, n);
    }
  }

  // ----- how many instructions there are -----

  ghost function Count(f: Func): nat
    requires WellFormedFunc(f)
  {
    |Items(f.phis, f.body, f.term, f.graph.blocks)|
  }

  lemma {:induction false} ItemsFewer(phis: PhiMap, body: BodyMap, term: TermMap, blocks: seq<Block>, gone: set<Block>)
    requires Known(phis, body, term, blocks)
    ensures |Items(phis, body, term, Remaining(blocks, gone))| <= |Items(phis, body, term, blocks)|
    ensures (exists b :: b in blocks && b in gone) ==> |Items(phis, body, term, Remaining(blocks, gone))| < |Items(phis, body, term, blocks)|
    decreases |blocks|
  {
    hide Items;
    if blocks == [] {
      assert Remaining(blocks, gone) == [];
    } else {
      var init, last := blocks[..|blocks| - 1], blocks[|blocks| - 1];
      ItemsFewer(phis, body, term, init, gone);
      assert forall b :: b in blocks <==> b in init || b == last;
      if last !in gone {
        var rest := Remaining(init, gone);
        ItemsSnoc(phis, body, term, rest, last);
        assert Remaining(blocks, gone) == rest + [last];
      }
      ItemsSnoc(phis, body, term, init, last);
      assert blocks == init + [last];
    }
  }

  lemma ItemsNone(phis: PhiMap, body: BodyMap, term: TermMap)
    ensures Known(phis, body, term, []) && |Items(phis, body, term, [])| == 0
  {
  }

  lemma ItemsSnoc(phis: PhiMap, body: BodyMap, term: TermMap, blocks: seq<Block>, b: Block)
    requires Known(phis, body, term, blocks + [b])
    ensures Known(phis, body, term, blocks)
    ensures |Items(phis, body, term, blocks + [b])| == |Items(phis, body, term, blocks)| + |phis[b]| + |body[b]| + 1
  {
    assert forall x | x in blocks :: x in blocks + [b];
    assert b in blocks + [b];
    assert (blocks + [b])[..|blocks|] == blocks;
    PhiCount(phis[b]);
    InstrCount(body[b]);
  }

  lemma {:induction false} InstrCount(instrs: seq<Instr>)
    ensures |InstrItems(instrs)| == |instrs|
  {
    if instrs != [] {
      InstrCount(instrs[..|instrs| - 1]);
    }
  }

  lemma {:induction false} InstrShorter(pure: Pures, kept: set<Id>, instrs: seq<Instr>)
    ensures |SweptBody(pure, kept, instrs)| <= |instrs|
    ensures |SweptBody(pure, kept, instrs)| == |instrs| ==> SweptBody(pure, kept, instrs) == instrs
  {
    hide Stays;
    if instrs != [] {
      var init, last := instrs[..|instrs| - 1], instrs[|instrs| - 1];
      InstrShorter(pure, kept, init);
      assert instrs == init + [last];
    }
  }

  lemma {:induction false} InstrSame(pure: Pures, kept: set<Id>, instrs: seq<Instr>, n: nat)
    requires n <= |instrs| && forall i | 0 <= i < |instrs| :: Stays(pure, kept, InstrItem(instrs[i]))
    ensures SweptBody(pure, kept, instrs[..n]) == instrs[..n]
    decreases n
  {
    hide Stays;
    if n > 0 {
      InstrSame(pure, kept, instrs, n - 1);
      var part := instrs[..n];
      assert part[..n - 1] == instrs[..n - 1] && part[n - 1] == instrs[n - 1] && part == instrs[..n - 1] + [instrs[n - 1]];
    }
  }

  lemma {:induction false} PhiCount(phis: seq<Phi>)
    ensures |PhiItems(phis)| == |phis|
  {
    if phis != [] {
      PhiCount(phis[..|phis| - 1]);
    }
  }

  lemma {:induction false} PhisShorter(pure: Pures, kept: set<Id>, phis: seq<Phi>)
    ensures |SweptPhis(pure, kept, phis)| <= |phis|
    ensures |SweptPhis(pure, kept, phis)| == |phis| ==> SweptPhis(pure, kept, phis) == phis
  {
    hide Stays;
    if phis != [] {
      var init, last := phis[..|phis| - 1], phis[|phis| - 1];
      PhisShorter(pure, kept, init);
      assert phis == init + [last];
    }
  }

  lemma {:induction false} PhisSame(pure: Pures, kept: set<Id>, phis: seq<Phi>, n: nat)
    requires n <= |phis| && forall i | 0 <= i < |phis| :: Stays(pure, kept, PhiItem(phis[i]))
    ensures SweptPhis(pure, kept, phis[..n]) == phis[..n]
    decreases n
  {
    hide Stays;
    if n > 0 {
      PhisSame(pure, kept, phis, n - 1);
      var part := phis[..n];
      assert part[..n - 1] == phis[..n - 1] && part[n - 1] == phis[n - 1] && part == phis[..n - 1] + [phis[n - 1]];
    }
  }

  /** Sweeping makes the list shorter, unless everything stays. */
  lemma SweptFewer(pure: Pures, kept: set<Id>, instrs: seq<Instr>)
    ensures |SweptBody(pure, kept, instrs)| <= |instrs|
    ensures SweptBody(pure, kept, instrs) == instrs <==> forall i | i in instrs :: Stays(pure, kept, InstrItem(i))
    ensures SweptBody(pure, kept, instrs) != instrs ==> |SweptBody(pure, kept, instrs)| < |instrs|
  {
    hide SweptBody, Stays;
    InstrShorter(pure, kept, instrs);
    SweptMembers(pure, kept, instrs);
    if forall i | i in instrs :: Stays(pure, kept, InstrItem(i)) {
      assert instrs[..|instrs|] == instrs;
      InstrSame(pure, kept, instrs, |instrs|);
    }
  }

  lemma SweptPhisFewer(pure: Pures, kept: set<Id>, phis: seq<Phi>)
    ensures |SweptPhis(pure, kept, phis)| <= |phis|
    ensures SweptPhis(pure, kept, phis) == phis <==> forall i | i in phis :: Stays(pure, kept, PhiItem(i))
    ensures SweptPhis(pure, kept, phis) != phis ==> |SweptPhis(pure, kept, phis)| < |phis|
  {
    hide SweptPhis, Stays;
    PhisShorter(pure, kept, phis);
    SweptPhiMembers(pure, kept, phis);
    if forall i | i in phis :: Stays(pure, kept, PhiItem(i)) {
      assert phis[..|phis|] == phis;
      PhisSame(pure, kept, phis, |phis|);
    }
  }

  lemma {:induction false} SweptCount(f: Func, f': Func, pure: Pures, kept: set<Id>, blocks: seq<Block>)
    requires WellFormedFunc(f) && Swept(f, f', pure, kept) && WellFormedFunc(f') && forall b | b in blocks :: b in f.graph.blocks
    ensures |Items(f'.phis, f'.body, f'.term, blocks)| <= |Items(f.phis, f.body, f.term, blocks)|
    ensures (exists b :: b in blocks && (f'.body[b] != f.body[b] || f'.phis[b] != f.phis[b])) ==>
              |Items(f'.phis, f'.body, f'.term, blocks)| < |Items(f.phis, f.body, f.term, blocks)|
    decreases |blocks|
  {
    hide WellFormed, SweptBody, SweptPhis, Items;
    if blocks == [] {
      ItemsNone(f.phis, f.body, f.term);
      ItemsNone(f'.phis, f'.body, f'.term);
    } else {
      var init, last := blocks[..|blocks| - 1], blocks[|blocks| - 1];
      assert last in blocks && forall b | b in init :: b in blocks;
      SweptCount(f, f', pure, kept, init);
      SweptFewer(pure, kept, f.body[last]);
      SweptPhisFewer(pure, kept, f.phis[last]);
      assert forall b :: b in blocks <==> b in init || b == last;
      assert blocks == init + [last];
      ItemsSnoc(f.phis, f.body, f.term, init, last);
      ItemsSnoc(f'.phis, f'.body, f'.term, init, last);
    }
  }

  /** Nothing is removed exactly when everything stays. */
  lemma SweptNothing(f: Func, f': Func, pure: Pures, kept: set<Id>)
    requires WellFormedFunc(f) && NeedsClosed(f, pure, kept) && Swept(f, f', pure, kept)
    ensures (forall b | b in f.graph.blocks :: f'.body[b] == f.body[b] && f'.phis[b] == f.phis[b])
            <==> forall item | ItemIn(f, item) :: Stays(pure, kept, item)
  {
    hide WellFormed, NeedsClosed;
    forall b | b in f.graph.blocks
      ensures f'.body[b] == f.body[b] <==> forall i | i in f.body[b] :: Stays(pure, kept, InstrItem(i))
      ensures f'.phis[b] == f.phis[b] <==> forall i | i in f.phis[b] :: Stays(pure, kept, PhiItem(i))
    {
      SweptFewer(pure, kept, f.body[b]);
      SweptPhisFewer(pure, kept, f.phis[b]);
    }
    if forall b | b in f.graph.blocks :: f'.body[b] == f.body[b] && f'.phis[b] == f.phis[b] {
      forall item | ItemIn(f, item) ensures Stays(pure, kept, item) {
        var b :| b in f.graph.blocks && ItemAt(f, b, item);
      }
    }
    if forall item | ItemIn(f, item) :: Stays(pure, kept, item) {
      forall b | b in f.graph.blocks ensures f'.body[b] == f.body[b] && f'.phis[b] == f.phis[b] {
        forall i | i in f.body[b] ensures Stays(pure, kept, InstrItem(i)) {
          assert ItemAt(f, b, InstrItem(i));
          assert ItemIn(f, InstrItem(i));
        }
        forall i | i in f.phis[b] ensures Stays(pure, kept, PhiItem(i)) {
          assert ItemAt(f, b, PhiItem(i));
          assert ItemIn(f, PhiItem(i));
        }
      }
    }
  }

  lemma OnceList(f: Func)
    requires WellFormedFunc(f) && DefinedOnce(f)
    ensures OneDefinition(Items(f.phis, f.body, f.term, f.graph.blocks))
  {
    forall item ensures item in Items(f.phis, f.body, f.term, f.graph.blocks) <==> ItemIn(f, item) {
      ItemsAre(f, f.graph.blocks, item);
    }
  }

  /** A pass over the function has been made: it has the same meaning, is no larger, and has the form that it had. */
  ghost predicate Reduced(f: Func, f': Func, pure: Pures) {
    && WellFormedFunc(f) && WellFormedFunc(f') && SeenAs(pure, f, f') && Count(f') <= Count(f) && (Form(f) ==> Form(f'))
    && forall item | ItemIn(f', item) :: ItemIn(f, item)
  }

  lemma ReducedStart(f: Func, pure: Pures)
    requires WellFormedFunc(f)
    ensures Reduced(f, f, pure)
  {
    hide Run, Form;
  }

  lemma ReducedTrans(f: Func, g: Func, h: Func, pure: Pures)
    requires Reduced(f, g, pure) && Reduced(g, h, pure)
    ensures Reduced(f, h, pure)
  {
    hide WellFormedFunc, SeenAs, Items, Form;
    SeenAsTrans(pure, f, g, h);
  }

  lemma ReducedOnce(f: Func, f': Func, pure: Pures)
    requires Reduced(f, f', pure) && DefinedOnce(f)
    ensures WellFormedFunc(f') && DefinedOnce(f')
  {
    hide WellFormedFunc, SeenAs, Items, Form;
  }

  /** Clearing is one, and makes the function smaller if it changes anything. */
  lemma ClearedReduced(f: Func, g': Graph, gone: set<Block>, pure: Pures)
    requires WellFormedFunc(f) && Cleared(f.graph, g', gone)
    ensures Reduced(f, f.(graph := g'), pure) && (gone != {} ==> Count(f.(graph := g')) < Count(f))
  {
    hide SeenAs, Items, Form, WellFormed;
    if Form(f) {
      ClearedFunc(f, g', gone);
      FormCleared(f, g', gone);
    }
    ClearedFunc(f, g', gone);
    ClearedSeenAs(pure, f, g');
    ItemsFewer(f.phis, f.body, f.term, f.graph.blocks, gone);
    assert (forall b :: b !in gone) ==> gone == {};
  }

  /** So is sweeping, and it changes something exactly when something does not stay. */
  lemma SweptReduced(f: Func, f': Func, pure: Pures, kept: set<Id>)
    requires WellFormedFunc(f) && NeedsClosed(f, pure, kept) && Swept(f, f', pure, kept)
    ensures Reduced(f, f', pure)
    ensures !(forall item | ItemIn(f, item) :: Stays(pure, kept, item)) ==> Count(f') < Count(f)
  {
    hide SeenAs, Items, NeedsClosed, WellFormed, Form;
    if Form(f) {
      SweptItems(f, f', pure, kept);
      FormSwept(f, f', pure, kept);
    }
    SweptItems(f, f', pure, kept);
    SweptSeenAs(f, f', pure, kept);
    SweptCount(f, f', pure, kept, f.graph.blocks);
    SweptNothing(f, f', pure, kept);
  }

  /** No block but the entry is without predecessors, and a chain of uses leads from everything to something that is noticed. */
  ghost predicate Tidy(f: Func, pure: Pures) {
    && WellFormedFunc(f) && (forall b | b in f.graph.blocks && b != f.graph.entry :: f.graph.pre[b] != [])
    && forall item | ItemIn(f, item) :: Needed(f, pure, item)
  }

  lemma TidyEnd(f: Func, pure: Pures, kept: set<Id>)
    requires WellFormedFunc(f) && DefinedOnce(f) && LeastNeeds(f, pure, kept) && forall item | ItemIn(f, item) :: Stays(pure, kept, item)
    requires forall b | b in f.graph.blocks && b != f.graph.entry :: f.graph.pre[b] != []
    ensures Tidy(f, pure)
  {
    hide LeastNeeds, WellFormedFunc, DefinedOnce, Needed, Stays;
    forall item | ItemIn(f, item) ensures Needed(f, pure, item) {
      LeastNeeded(f, pure, kept, item);
    }
  }

  lemma SameFunc(f: Func, f': Func, pure: Pures, kept: set<Id>)
    requires WellFormedFunc(f) && NeedsClosed(f, pure, kept) && Swept(f, f', pure, kept) && forall item | ItemIn(f, item) :: Stays(pure, kept, item)
    ensures WellFormedFunc(f') && (forall item :: ItemIn(f', item) <==> ItemIn(f, item)) && f'.graph == f.graph
    ensures forall s :: NeedsClosed(f', pure, s) <==> NeedsClosed(f, pure, s)
  {
    SweptItems(f, f', pure, kept);
    forall id ensures DefinedIn(f', id) <==> DefinedIn(f, id) {
      if DefinedIn(f, id) {
        var item :| ItemIn(f, item) && Defined(item) == Some(id);
        assert ItemIn(f', item);
      }
    }
  }

  class DeadCode {
    var entry: Block
    var blocks: seq<Block>
    var pre: map<Block, seq<Block>>
    var succ: map<Block, seq<Block>>
    var phis: PhiMap
    var body: BodyMap
    var term: TermMap
    var workList: seq<Item>
    var marked: set<Id>
    var insCount: nat
    const pure: Pures

    constructor (f: Func, pure: Pures)
      ensures Code() == f && this.pure == pure && insCount == 0
    {
      entry, blocks, pre, succ := f.graph.entry, f.graph.blocks, f.graph.pre, f.graph.succ;
      phis, body, term := f.phis, f.body, f.term;
      workList, marked, insCount := [], {}, 0;
      this.pure := pure;
    }

    ghost function Code(): Func
      reads this
    {
      Func(Graph(entry, blocks, pre, succ), phis, body, term)
    }

    /** First all blocks without predecessors are collected, then they are taken out one by one. */
    method ClearBasicBlocks() returns (changed: bool)
      requires WellFormedFunc(Code())
      modifies this`blocks, this`pre
      ensures Reduced(old(Code()), Code(), pure)
      ensures changed <==> exists b :: b in old(blocks) && b != entry && old(pre)[b] == []
      ensures changed ==> Count(Code()) < Count(old(Code()))
      ensures !changed ==> Code() == old(Code())
    {
      hide Reduced, Count, Cleared, WellFormedFunc, Remaining;
      ghost var f := Code();
      ClearedStart(f);
      var toErase := UnreachedBlocks();
      var j := 0;
      assert toErase[..0] == [] && Elements(toErase[..0]) == {};
      while j < |toErase|
        invariant 0 <= j <= |toErase| && (j == 0 ==> Code() == f)
        invariant Cleared(f.graph, Graph(entry, blocks, pre, succ), Elements(toErase[..j]))
      {
        EraseKnown(f, Graph(entry, blocks, pre, succ), toErase, j);
        ghost var g := Graph(entry, blocks, pre, succ);
        RemoveBlock(toErase[j]);
        EraseOne(f, g, Graph(entry, blocks, pre, succ), toErase, j);
        j := j + 1;
      }
      assert toErase[..j] == toErase;
      ClearedReduced(f, Graph(entry, blocks, pre, succ), Elements(toErase), pure);
      changed := toErase != [];
      if changed {
        var b := toErase[0];
        assert b in toErase && b in Elements(toErase) && b in old(blocks) && b != entry && old(pre)[b] == [];
      }
    }

    method UnreachedBlocks() returns (toErase: seq<Block>)
      requires forall b | b in blocks :: b in pre
      ensures forall b :: b in toErase <==> b in blocks && b != entry && pre[b] == []
    {
      toErase := [];
      var i := 0;
      while i < |blocks|
        invariant 0 <= i <= |blocks|
        invariant forall b :: b in toErase <==> b in blocks[..i] && b != entry && pre[b] == []
      {
        var bb := blocks[i];
        assert blocks[..i + 1] == blocks[..i] + [bb];
        if pre[bb] == [] && bb != entry {
          toErase := toErase + [bb];
        }
        i := i + 1;
      }
      assert blocks[..|blocks|] == blocks;
    }

    /** Out of the block list, and out of the predecessor lists of its successors. */
    method RemoveBlock(bb: Block)
      requires bb in succ && forall s | s in succ[bb] :: s in pre
      modifies this`blocks, this`pre
      ensures blocks == Remaining(old(blocks), {bb})
      ensures pre.Keys == old(pre).Keys && forall b | b in pre :: pre[b] == if b in succ[bb] then Remaining(old(pre)[b], {bb}) else old(pre)[b]
    {
      hide Remaining;
      blocks := Remaining(blocks, {bb});
      var k := 0;
      while k < |succ[bb]|
        invariant 0 <= k <= |succ[bb]| && pre.Keys == old(pre).Keys && blocks == Remaining(old(blocks), {bb})
        invariant forall b | b in pre :: pre[b] == if b in succ[bb][..k] then Remaining(old(pre)[b], {bb}) else old(pre)[b]
      {
        var s := succ[bb][k];
        assert succ[bb][..k + 1] == succ[bb][..k] + [s];
        WithoutTwice(old(pre)[s], {bb});
        pre := pre[s := Remaining(pre[s], {bb})];
        assert pre.Keys == old(pre).Keys;
        k := k + 1;
      }
      assert succ[bb][..k] == succ[bb];
    }

    /** The critical instructions first. */
    method MarkCriticals(instructions: seq<Item>)
      requires OneDefinition(instructions)
      modifies this`workList, this`marked
      ensures MarkState(instructions, instructions, pure, marked, workList) && BelowClosed(instructions, pure, marked)
      ensures forall item :: item in workList <==> item in instructions && Noticed(pure, item)
    {
      hide MarkState, BelowClosed, OneDefinition, IsCritical, Noticed;
      workList, marked := [], {};
      MarkStart(instructions, pure);
      var i := 0;
      assert instructions[..0] == [];
      while i < |instructions|
        invariant 0 <= i <= |instructions|
        invariant MarkState(instructions, instructions[..i], pure, marked, workList) && BelowClosed(instructions, pure, marked)
        invariant forall item :: item in workList <==> item in instructions[..i] && Noticed(pure, item)
      {
        var ins := instructions[i];
        CriticalNoticed(pure, ins);
        MarkCritical(instructions, instructions[..i], pure, marked, workList, ins);
        assert instructions[..i + 1] == instructions[..i] + [ins];
        if IsCritical(pure, ins) {
          if Defined(ins).Some? {
            marked := marked + {Defined(ins).value};
          }
          workList := workList + [ins];
        }
        i := i + 1;
      }
      assert instructions[..i] == instructions;
    }

    /** Then whatever they need. */
    method Mark()
      requires WellFormedFunc(Code()) && DefinedOnce(Code())
      modifies this`workList, this`marked
      ensures LeastNeeds(Code(), pure, marked)
    {
      hide MarkState, BelowClosed, OneDefinition, Opening, WellFormedFunc, DefinedOnce, Items, LeastNeeds;
      ghost var f := Code();
      FuncKnown(f);
      OnceList(f);
      var instructions := Items(phis, body, term, blocks);
      MarkCriticals(instructions);
      while workList != []
        invariant MarkState(instructions, instructions, pure, marked, workList) && BelowClosed(instructions, pure, marked)
        decreases Unmarked(instructions, marked), |workList|
      {
        var now := workList[0];
        OpenNext(instructions, pure, marked, workList);
        workList := workList[1..];
        MarkOperands(instructions, now);
      }
      MarkedAll(f, instructions, pure, marked);
    }

    /** The definitions of the operands of one instruction. */
    method MarkOperands(instructions: seq<Item>, now: Item)
      requires OneDefinition(instructions) && Opening(instructions, pure, marked, workList, now, 0) && BelowClosed(instructions, pure, marked)
      modifies this`workList, this`marked
      ensures MarkState(instructions, instructions, pure, marked, workList) && BelowClosed(instructions, pure, marked)
      ensures Unmarked(instructions, marked) < Unmarked(instructions, old(marked)) || (marked == old(marked) && workList == old(workList))
    {
      hide MarkState, BelowClosed, OneDefinition, Opening, Unmarked, Definition, Operands;
      var ops := Operands(now);
      var k := 0;
      while k < |ops|
        invariant 0 <= k <= |ops| && BelowClosed(instructions, pure, marked) && Opening(instructions, pure, marked, workList, now, k)
        invariant Unmarked(instructions, marked) < Unmarked(instructions, old(marked)) || (marked == old(marked) && workList == old(workList))
      {
        OperandMarked(instructions, pure, marked, workList, now, k);
        var def := if ops[k].Res? then Definition(instructions, ops[k].id) else None;
        if def.Some? && ops[k].id !in marked {
          MarkedMore(instructions, marked, ops[k].id);
          marked := marked + {ops[k].id};
          workList := workList + [def.value];
        }
        k := k + 1;
      }
      OpenEnd(instructions, pure, marked, workList, now);
    }

    /** What has not been marked goes. */
    method Sweep() returns (changed: bool)
      requires WellFormedFunc(Code()) && NeedsClosed(Code(), pure, marked)
      modifies this`phis, this`body, this`insCount
      ensures Swept(old(Code()), Code(), pure, marked)
      ensures !changed <==> forall item | ItemIn(old(Code()), item) :: Stays(pure, marked, item)
    {
      hide NeedsClosed, SweepState, Stays, SweptBody, SweptPhis, WellFormedFunc, Swept;
      ghost var f := Code();
      changed := false;
      var i := 0;
      SweepStart(f, pure, marked);
      while i < |blocks|
        invariant 0 <= i <= |blocks| && SweepState(f, pure, marked, phis, body, i, changed)
      {
        var bb := blocks[i];
        SweepKnown(f, pure, marked, phis, body, i, changed);
        var leftPhis := KeptPhis(phis[bb]);
        var left := KeptInstrs(body[bb]);
        SweptFewer(pure, marked, body[bb]);
        SweptPhisFewer(pure, marked, phis[bb]);
        SweepNext(f, pure, marked, phis, body, i, changed);
        insCount := insCount + (|phis[bb]| - |leftPhis|) + (|body[bb]| - |left|);
        changed := changed || leftPhis != phis[bb] || left != body[bb];
        phis, body := phis[bb := leftPhis], body[bb := left];
        i := i + 1;
      }
      SweepEnd(f, pure, marked, phis, body, changed);
    }

    method KeptInstrs(instrs: seq<Instr>) returns (left: seq<Instr>)
      ensures left == SweptBody(pure, marked, instrs)
    {
      left := [];
      var i := 0;
      while i < |instrs|
        invariant 0 <= i <= |instrs| && left == SweptBody(pure, marked, instrs[..i])
      {
        assert instrs[..i + 1][..i] == instrs[..i];
        if Stays(pure, marked, InstrItem(instrs[i])) {
          left := left + [instrs[i]];
        }
        i := i + 1;
      }
      assert instrs[..i] == instrs;
    }

    method KeptPhis(list: seq<Phi>) returns (left: seq<Phi>)
      ensures left == SweptPhis(pure, marked, list)
    {
      left := [];
      var i := 0;
      while i < |list|
        invariant 0 <= i <= |list| && left == SweptPhis(pure, marked, list[..i])
      {
        assert list[..i + 1][..i] == list[..i];
        if Stays(pure, marked, PhiItem(list[i])) {
          left := left + [list[i]];
        }
        i := i + 1;
      }
      assert list[..i] == list;
    }

    /** Until nothing changes: the result cannot be told from the function, and nothing more can go. */
    method Run()
      requires WellFormedFunc(Code()) && DefinedOnce(Code())
      modifies this
      ensures Reduced(old(Code()), Code(), pure) && Tidy(Code(), pure)
    {
      hide Reduced, Tidy, WellFormedFunc, DefinedOnce, LeastNeeds, NeedsClosed, Swept, Count;
      ghost var f := Code();
      ReducedStart(f, pure);
      var changed := true;
      ghost var size := Count(f) + 1;
      while changed
        invariant Reduced(f, Code(), pure) && WellFormedFunc(Code()) && DefinedOnce(Code()) && (changed ==> Count(Code()) < size)
        invariant !changed ==> Tidy(Code(), pure)
        decreases size, changed
      {
        size := Count(Code());
        ghost var f0 := Code();
        changed := ClearBasicBlocks();
        ghost var f1, cleared := Code(), changed;
        ReducedOnce(f0, f1, pure);
        Mark();
        LeastIsClosed(f1, pure, marked);
        var swept := Sweep();
        SweptReduced(f1, Code(), pure, marked);
        changed := changed || swept;
        ReducedTrans(f0, f1, Code(), pure);
        ReducedOnce(f0, Code(), pure);
        ReducedTrans(f, f0, Code(), pure);
        ReducedCount(f0, f1, pure);
        ReducedCount(f1, Code(), pure);
        if !changed {
          LastRound(f1, Code(), pure, marked);
        }
      }
    }
  }

  ghost function Unmarked(items: seq<Item>, marked: set<Id>): nat {
    |IdsOf(items) - marked|
  }

  lemma MarkedMore(items: seq<Item>, marked: set<Id>, id: Id)
    requires Definition(items, id).Some? && id !in marked
    ensures Unmarked(items, marked + {id}) < Unmarked(items, marked)
  {
    var a, b := IdsOf(items) - (marked + {id}), IdsOf(items) - marked;
    assert id in b && b == a + {id};
  }

  lemma {:induction false} WithoutNone(s: seq<Block>)
    ensures Remaining(s, {}) == s
  {
    if s != [] {
      WithoutNone(s[..|s| - 1]);
    }
  }

  lemma {:induction false} WithoutTwice(s: seq<Block>, gone: set<Block>)
    ensures Remaining(Remaining(s, gone), gone) == Remaining(s, gone)
  {
    WithoutBoth(s, gone, gone);
    assert gone + gone == gone;
  }

  lemma {:induction false} WithoutBoth(s: seq<Block>, a: set<Block>, b: set<Block>)
    ensures Remaining(Remaining(s, a), b) == Remaining(s, a + b)
    decreases |s|
  {
    if s != [] {
      var init, last := s[..|s| - 1], s[|s| - 1];
      WithoutBoth(init, a, b);
      var rest := Remaining(init, a);
      assert (rest + [last])[..|rest + [last]| - 1] == rest;
    }
  }

  lemma LeastIsClosed(f: Func, pure: Pures, kept: set<Id>)
    requires WellFormedFunc(f) && LeastNeeds(f, pure, kept)
    ensures NeedsClosed(f, pure, kept)
  {
  }

  lemma ReducedCount(f: Func, f': Func, pure: Pures)
    requires Reduced(f, f', pure)
    ensures WellFormedFunc(f) && WellFormedFunc(f') && Count(f') <= Count(f)
  {
    hide WellFormedFunc, SeenAs, Items;
  }

  /** When a round has changed nothing. */
  lemma LastRound(f1: Func, f': Func, pure: Pures, kept: set<Id>)
    requires WellFormedFunc(f1) && DefinedOnce(f1) && LeastNeeds(f1, pure, kept) && Swept(f1, f', pure, kept)
    requires forall item | ItemIn(f1, item) :: Stays(pure, kept, item)
    requires forall b | b in f1.graph.blocks && b != f1.graph.entry :: f1.graph.pre[b] != []
    ensures Tidy(f', pure)
  {
    hide NeedsClosed, Swept;
    SameFunc(f1, f', pure, kept);
    SweptIsGraph(f1, f', pure, kept);
    TidyEnd(f', pure, kept);
  }

  lemma SweptIsGraph(f: Func, f': Func, pure: Pures, kept: set<Id>)
    requires WellFormedFunc(f) && Swept(f, f', pure, kept)
    ensures f'.graph == f.graph
  {
  }

  lemma FuncKnown(f: Func)
    requires WellFormedFunc(f)
    ensures Known(f.phis, f.body, f.term, f.graph.blocks)
  {
  }

  lemma ClearedStart(f: Func)
    requires WellFormedFunc(f)
    ensures Cleared(f.graph, f.graph, {}) && forall b | b in f.graph.blocks :: b in f.graph.pre
  {
    hide Remaining;
    WithoutNone(f.graph.blocks);
    forall b | b in f.graph.blocks ensures b in f.graph.pre && f.graph.pre[b] == Remaining(f.graph.pre[b], {}) {
      WithoutNone(f.graph.pre[b]);
    }
  }

  lemma EraseKnown(f: Func, g: Graph, toErase: seq<Block>, j: nat)
    requires WellFormedFunc(f) && j < |toErase| && Cleared(f.graph, g, Elements(toErase[..j]))
    requires forall b | b in toErase :: b in f.graph.blocks && b in f.graph.pre && b != f.graph.entry && f.graph.pre[b] == []
    ensures toErase[j] in g.succ && forall s | s in g.succ[toErase[j]] :: s in g.pre
  {
    hide Remaining;
    var bb := toErase[j];
    assert bb in toErase;
    forall s | s in g.succ[bb] ensures s in g.pre {
      assert s in f.graph.blocks && bb in f.graph.pre[s];
      assert s !in toErase;
      assert s !in Elements(toErase[..j]);
    }
  }

  /** One more block taken out. */
  lemma EraseOne(f: Func, g: Graph, g': Graph, toErase: seq<Block>, j: nat)
    requires WellFormedFunc(f) && j < |toErase| && Cleared(f.graph, g, Elements(toErase[..j]))
    requires forall b | b in toErase :: b in f.graph.blocks && b in f.graph.pre && b != f.graph.entry && f.graph.pre[b] == []
    requires g'.entry == g.entry && g'.succ == g.succ && g'.blocks == Remaining(g.blocks, {toErase[j]}) && g'.pre.Keys == g.pre.Keys
    requires toErase[j] in g.succ
    requires forall b | b in g.pre :: g'.pre[b] == if b in g.succ[toErase[j]] then Remaining(g.pre[b], {toErase[j]}) else g.pre[b]
    ensures Cleared(f.graph, g', Elements(toErase[..j + 1]))
  {
    hide Remaining;
    var bb := toErase[j];
    assert bb in toErase;
    var gone := Elements(toErase[..j]);
    assert toErase[..j + 1] == toErase[..j] + [bb];
    assert Elements(toErase[..j + 1]) == gone + {bb};
    WithoutBoth(f.graph.blocks, gone, {bb});
    forall b | b in f.graph.blocks && b !in gone + {bb} ensures b in g'.pre && g'.pre[b] == Remaining(f.graph.pre[b], gone + {bb}) {
      WithoutBoth(f.graph.pre[b], gone, {bb});
      if b !in f.graph.succ[bb] {
        assert bb !in f.graph.pre[b];
        WithoutAbsent(g.pre[b], bb);
      }
    }
  }

  lemma {:induction false} WithoutAbsent(s: seq<Block>, b: Block)
    requires b !in s
    ensures Remaining(s, {b}) == s
  {
    if s != [] {
      WithoutAbsent(s[..|s| - 1], b);
    }
  }

  // ----- the state of the sweep -----

  ghost predicate SweepState(f: Func, pure: Pures, kept: set<Id>, phis: PhiMap, body: BodyMap, i: nat, changed: bool)
    requires WellFormedFunc(f)
  {
    && i <= |f.graph.blocks|
    && (forall b | b in f.graph.blocks :: b in phis && b in body)
    && (forall b | b in f.graph.blocks[..i] :: phis[b] == SweptPhis(pure, kept, f.phis[b]) && body[b] == SweptBody(pure, kept, f.body[b]))
    && (forall b | b in f.graph.blocks && b !in f.graph.blocks[..i] :: phis[b] == f.phis[b] && body[b] == f.body[b])
    && (changed <==> exists b :: b in f.graph.blocks[..i] && (phis[b] != f.phis[b] || body[b] != f.body[b]))
  }

  lemma SweepStart(f: Func, pure: Pures, kept: set<Id>)
    requires WellFormedFunc(f)
    ensures SweepState(f, pure, kept, f.phis, f.body, 0, false)
  {
    assert f.graph.blocks[..0] == [];
  }

  lemma SweepKnown(f: Func, pure: Pures, kept: set<Id>, phis: PhiMap, body: BodyMap, i: nat, changed: bool)
    requires WellFormedFunc(f) && SweepState(f, pure, kept, phis, body, i, changed)
    ensures forall b | b in f.graph.blocks :: b in phis && b in body
  {
    hide WellFormedFunc, SweptBody, SweptPhis;
  }

  /** What has been swept stays as it is. */
  lemma SweptTwice(pure: Pures, kept: set<Id>, instrs: seq<Instr>, phis: seq<Phi>)
    ensures SweptBody(pure, kept, SweptBody(pure, kept, instrs)) == SweptBody(pure, kept, instrs)
    ensures SweptPhis(pure, kept, SweptPhis(pure, kept, phis)) == SweptPhis(pure, kept, phis)
  {
    hide SweptBody, SweptPhis, Stays;
    SweptMembers(pure, kept, instrs);
    SweptPhiMembers(pure, kept, phis);
    SweptFewer(pure, kept, SweptBody(pure, kept, instrs));
    SweptPhisFewer(pure, kept, SweptPhis(pure, kept, phis));
  }

  lemma SweepNext(f: Func, pure: Pures, kept: set<Id>, phis: PhiMap, body: BodyMap, i: nat, changed: bool)
    requires WellFormedFunc(f) && SweepState(f, pure, kept, phis, body, i, changed) && i < |f.graph.blocks|
    ensures var bb := f.graph.blocks[i];
            && bb in phis && bb in body
            && var leftPhis, left := SweptPhis(pure, kept, phis[bb]), SweptBody(pure, kept, body[bb]);
               SweepState(f, pure, kept, phis[bb := leftPhis], body[bb := left], i + 1, changed || leftPhis != phis[bb] || left != body[bb])
  {
    hide SweptBody, SweptPhis, WellFormed;
    var bb, done := f.graph.blocks[i], f.graph.blocks[..i];
    assert f.graph.blocks[..i + 1] == done + [bb];
    assert forall b :: b in f.graph.blocks[..i + 1] <==> b in done || b == bb;
    SweptTwice(pure, kept, f.body[bb], f.phis[bb]);
    var phis', body' := phis[bb := SweptPhis(pure, kept, phis[bb])], body[bb := SweptBody(pure, kept, body[bb])];
    SweepChanged(f, phis, body, phis', body', done, bb);
  }

  /** Something has changed so far if and only if something had, or this block has. */
  lemma SweepChanged(f: Func, phis: PhiMap, body: BodyMap, phis': PhiMap, body': BodyMap, done: seq<Block>, bb: Block)
    requires (forall b | b in done || b == bb :: b in phis && b in body && b in f.phis && b in f.body && b in phis' && b in body')
    requires (forall b | b in done && b != bb :: phis'[b] == phis[b] && body'[b] == body[b])
    requires if bb in done then phis'[bb] == phis[bb] && body'[bb] == body[bb] else phis[bb] == f.phis[bb] && body[bb] == f.body[bb]
    ensures (exists b :: (b in done || b == bb) && (phis'[b] != f.phis[b] || body'[b] != f.body[b]))
            <==> (exists b :: b in done && (phis[b] != f.phis[b] || body[b] != f.body[b])) || phis'[bb] != phis[bb] || body'[bb] != body[bb]
  {
    if b :| b in done && (phis[b] != f.phis[b] || body[b] != f.body[b]) {
      assert phis'[b] != f.phis[b] || body'[b] != f.body[b];
    }
  }

  lemma SweepEnd(f: Func, pure: Pures, kept: set<Id>, phis: PhiMap, body: BodyMap, changed: bool)
    requires WellFormedFunc(f) && NeedsClosed(f, pure, kept) && SweepState(f, pure, kept, phis, body, |f.graph.blocks|, changed)
    ensures Swept(f, f.(phis := phis, body := body), pure, kept)
    ensures !changed <==> forall item | ItemIn(f, item) :: Stays(pure, kept, item)
  {
    hide SweptBody, SweptPhis, WellFormed, NeedsClosed;
    assert f.graph.blocks[..|f.graph.blocks|] == f.graph.blocks;
    SweptNothing(f, f.(phis := phis, body := body), pure, kept);
  }
}
