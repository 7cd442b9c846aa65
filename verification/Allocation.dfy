/** Where the frame allocation puts things: value slots and alloca bodies are stacked
    downwards from the saved ra and fp, in the order of the function's code. */
module Allocation {
  import opened Cfg
  import opened LoongArch
  import opened Frame
  import opened LowIr

  const PROLOGUE_OFFSET_BASE: nat := 16
  const PROLOGUE_ALIGN: nat := 16

  /** A value's slot, or the memory that an alloca hands out. */
  datatype Item = Slot(id: Id, size: nat) | Body(id: Id, size: nat)

  function SizeOf(ty: map<Id, Type>, id: Id): nat {
    if id in ty then Size(ty[id]) else 0
  }

  function ArgItems(ty: map<Id, Type>, args: seq<Id>): seq<Item> {
    if args == [] then [] else [Slot(args[0], SizeOf(ty, args[0]))] + ArgItems(ty, args[1..])
  }

  function PhiItems(ty: map<Id, Type>, phis: seq<Phi>): seq<Item> {
    if phis == [] then [] else [Slot(phis[0].id, SizeOf(ty, phis[0].id))] + PhiItems(ty, phis[1..])
  }

  function InstItems(ty: map<Id, Type>, insts: seq<Inst>): seq<Item> {
    if insts == [] then [] else ItemsOf(ty, insts[0]) + InstItems(ty, insts[1..])
  }

  function ItemsOf(ty: map<Id, Type>, inst: Inst): seq<Item> {
    match Defined(inst)
    case None => []
    case Some(id) => [Slot(id, SizeOf(ty, id))] + if inst.Alloca? then [Body(id, inst.bodySize)] else []
  }

  function BlockItems(f: Function, blocks: seq<Block>): seq<Item> {
    if blocks == [] then [] else ItemsIn(f, blocks[0]) + BlockItems(f, blocks[1..])
  }

  function ItemsIn(f: Function, b: Block): seq<Item> {
    if b in f.phis && b in f.body then PhiItems(f.ty, f.phis[b]) + InstItems(f.ty, f.body[b]) else []
  }

  predicate HasBlocks(f: Function) {
    forall b | b in f.blocks :: b in f.phis && b in f.body && b in f.term
  }

  /** Everything that needs room, in allocation order. */
  function Items(f: Function): seq<Item> {
    ArgItems(f.ty, f.args) + BlockItems(f, f.blocks)
  }

  /** Values are distinct objects. */
  ghost predicate SlotsDistinct(items: seq<Item>) {
    forall j, k | 0 <= j < k < |items| && items[j].Slot? && items[k].Slot? :: items[j].id != items[k].id
  }

  function Total(items: seq<Item>): nat {
    if items == [] then 0 else Total(items[..|items| - 1]) + items[|items| - 1].size
  }

  /** The offset from fp at which an item begins. */
  function PlaceOf(off: map<Id, int>, item: Item): int
    requires item.id in off
  {
    if item.Slot? then off[item.id] else off[item.id] - item.size
  }

  /** The items are stacked below the first sixteen bytes without gaps; offset is how far down. */
  ghost predicate Stacked(items: seq<Item>, off: map<Id, int>, offset: nat) {
    && offset == PROLOGUE_OFFSET_BASE + Total(items)
    && (forall k | 0 <= k < |items| :: items[k].id in off && PlaceOf(off, items[k]) == -(PROLOGUE_OFFSET_BASE + Total(items[..k + 1])))
    && (forall id | id in off :: exists k :: 0 <= k < |items| && items[k].Slot? && items[k].id == id)
  }

  lemma StackedStart()
    ensures Stacked([], map[], PROLOGUE_OFFSET_BASE)
  {
  }

  lemma ArgItemsNext(ty: map<Id, Type>, args: seq<Id>, i: nat)
    requires i < |args|
    ensures ArgItems(ty, args[i..]) == [Slot(args[i], SizeOf(ty, args[i]))] + ArgItems(ty, args[i + 1..])
  {
    assert args[i..][1..] == args[i + 1..];
  }

  lemma PhiItemsNext(ty: map<Id, Type>, phis: seq<Phi>, i: nat)
    requires i < |phis|
    ensures PhiItems(ty, phis[i..]) == [Slot(phis[i].id, SizeOf(ty, phis[i].id))] + PhiItems(ty, phis[i + 1..])
  {
    assert phis[i..][1..] == phis[i + 1..];
  }

  lemma InstItemsNext(ty: map<Id, Type>, insts: seq<Inst>, i: nat)
    requires i < |insts|
    ensures InstItems(ty, insts[i..]) == ItemsOf(ty, insts[i]) + InstItems(ty, insts[i + 1..])
  {
    assert insts[i..][1..] == insts[i + 1..];
  }

  lemma BlockItemsNext(f: Function, blocks: seq<Block>, i: nat)
    requires i < |blocks|
    ensures BlockItems(f, blocks[i..]) == ItemsIn(f, blocks[i]) + BlockItems(f, blocks[i + 1..])
  {
    assert blocks[i..][1..] == blocks[i + 1..];
  }

  lemma NoArgsLeft(f: Function)
    ensures ArgItems(f.ty, f.args[|f.args|..]) == []
  {
  }

  lemma NoBlocksLeft(f: Function)
    ensures BlockItems(f, f.blocks[|f.blocks|..]) == []
  {
  }

  lemma NoPhisLeft(ty: map<Id, Type>, phis: seq<Phi>, insts: seq<Inst>)
    ensures PhiItems(ty, phis[|phis|..]) == [] && insts[0..] == insts && InstItems(ty, insts[|insts|..]) == []
  {
  }

  lemma AllocationDone(f: Function, off: map<Id, int>, offset: nat)
    requires SlotsDistinct(Items(f)) && Stacked(Items(f), off, offset)
    ensures Allocated(f, off, Align(offset, PROLOGUE_ALIGN))
  {
    hide Total, Items, SlotsDistinct, Align;
  }

  lemma TotalSnoc(items: seq<Item>, item: Item)
    ensures Total(items + [item]) == Total(items) + item.size
  {
    assert (items + [item])[..|items|] == items;
  }

  lemma PrefixSnoc(items: seq<Item>, item: Item, k: nat)
    requires k <= |items|
    ensures (items + [item])[..k] == items[..k]
  {
  }

  lemma AddSlot(items: seq<Item>, off: map<Id, int>, offset: nat, id: Id, size: nat)
    requires Stacked(items, off, offset) && id !in off
    ensures Stacked(items + [Slot(id, size)], off[id := -(offset + size)], offset + size)
  {
    hide Total;
    var items', off' := items + [Slot(id, size)], off[id := -(offset + size)];
    TotalSnoc(items, Slot(id, size));
    forall k | 0 <= k < |items'|
      ensures items'[k].id in off' && PlaceOf(off', items'[k]) == -(PROLOGUE_OFFSET_BASE + Total(items'[..k + 1]))
    {
      if k < |items| {
        PrefixSnoc(items, Slot(id, size), k + 1);
      } else {
        assert items'[..k + 1] == items';
      }
    }
    forall i | i in off' ensures exists k :: 0 <= k < |items'| && items'[k].Slot? && items'[k].id == i {
      if i == id {
        assert items'[|items|].Slot? && items'[|items|].id == i;
      } else {
        var k :| 0 <= k < |items| && items[k].Slot? && items[k].id == i;
        assert items'[k] == items[k];
      }
    }
  }

  lemma AddBody(items: seq<Item>, off: map<Id, int>, offset: nat, id: Id, size: nat)
    requires Stacked(items, off, offset) && |items| > 0 && items[|items| - 1].Slot? && items[|items| - 1].id == id
    ensures Stacked(items + [Body(id, size)], off, offset + size)
  {
    hide Total;
    var items' := items + [Body(id, size)];
    TotalSnoc(items, Body(id, size));
    assert items[..|items| - 1 + 1] == items;
    forall k | 0 <= k < |items'|
      ensures items'[k].id in off && PlaceOf(off, items'[k]) == -(PROLOGUE_OFFSET_BASE + Total(items'[..k + 1]))
    {
      if k < |items| {
        PrefixSnoc(items, Body(id, size), k + 1);
      } else {
        assert items'[..k + 1] == items';
      }
    }
    forall i | i in off ensures exists k :: 0 <= k < |items'| && items'[k].Slot? && items'[k].id == i {
      var k :| 0 <= k < |items| && items[k].Slot? && items[k].id == i;
      assert items'[k] == items[k];
    }
  }

  /** The next slot of the list has no offset yet. */
  lemma SlotNew(items: seq<Item>, off: map<Id, int>, offset: nat, all: seq<Item>, id: Id, size: nat, rest: seq<Item>)
    requires Stacked(items, off, offset) && SlotsDistinct(all) && items + [Slot(id, size)] + rest == all
    ensures id !in off
  {
    hide Total;
    assert all[|items|] == Slot(id, size);
    forall k | 0 <= k < |items| && items[k].Slot? ensures items[k].id != id {
      assert all[k] == items[k];
    }
  }

  /** x rounded up to a multiple of the alignment, a power of two. */
  function Align(x: nat, alignment: nat): (r: nat)
    requires alignment > 0
    ensures r % alignment == 0 && x <= r < x + alignment
  {
    var y := x + (alignment - 1);
    ModUnique(y - y % alignment, y / alignment, alignment, 0);
    y - y % alignment
  }

  /** The outcome of the allocation. */
  ghost predicate Allocated(f: Function, off: map<Id, int>, frameSize: nat) {
    && SlotsDistinct(Items(f)) && Stacked(Items(f), off, PROLOGUE_OFFSET_BASE + Total(Items(f)))
    && frameSize == Align(PROLOGUE_OFFSET_BASE + Total(Items(f)), PROLOGUE_ALIGN)
  }

  lemma {:induction false} TotalMonotone(items: seq<Item>, j: nat, k: nat)
    requires j <= k <= |items|
    ensures Total(items[..j]) <= Total(items[..k])
    ensures j < k ==> Total(items[..j]) + items[k - 1].size <= Total(items[..k])
    decreases k
  {
    if j < k {
      assert items[..k][..k - 1] == items[..k - 1];
      TotalMonotone(items, j, k - 1);
    }
  }

  lemma StackedPlace(items: seq<Item>, off: map<Id, int>, offset: nat, k: nat)
    requires Stacked(items, off, offset) && k < |items|
    ensures items[k].id in off && PlaceOf(off, items[k]) == -(PROLOGUE_OFFSET_BASE + Total(items[..k + 1]))
    ensures Total(items[..k]) + items[k].size <= Total(items[..k + 1]) <= Total(items)
    ensures offset == PROLOGUE_OFFSET_BASE + Total(items)
  {
    hide Total;
    TotalMonotone(items, k, k + 1);
    TotalMonotone(items, k + 1, |items|);
    assert items[..|items|] == items;
  }

  /** Two different items do not overlap; all lie below the saved pair and inside the frame. */
  lemma ItemsApart(f: Function, off: map<Id, int>, frameSize: nat, j: nat, k: nat)
    requires Allocated(f, off, frameSize) && j < |Items(f)| && k < |Items(f)|
    ensures Items(f)[j].id in off && Items(f)[k].id in off
    ensures 0 - frameSize <= PlaceOf(off, Items(f)[k]) && PlaceOf(off, Items(f)[k]) + Items(f)[k].size <= -16
    ensures j < k ==> PlaceOf(off, Items(f)[k]) + Items(f)[k].size <= PlaceOf(off, Items(f)[j])
  {
    hide Total, Items, SlotsDistinct, Align, Stacked, PlaceOf;
    var items := Items(f);
    StackedPlace(items, off, PROLOGUE_OFFSET_BASE + Total(items), k);
    StackedPlace(items, off, PROLOGUE_OFFSET_BASE + Total(items), j);
    if j < k {
      TotalMonotone(items, j + 1, k);
    }
  }

  /** Room for a frame of this size below fp. */
  predicate Room(fp: int, frameSize: nat) {
    -TWO_63 <= fp - frameSize && fp < TWO_63 && frameSize < TWO_31
  }

  ghost predicate Typed(f: Function, off: map<Id, int>) {
    forall id | id in off :: id in f.ty
  }

  lemma SlotIndex(f: Function, off: map<Id, int>, frameSize: nat, id: Id) returns (k: nat)
    requires Allocated(f, off, frameSize) && id in off
    ensures k < |Items(f)| && Items(f)[k].Slot? && Items(f)[k].id == id
  {
    hide Total, Items;
    var i :| 0 <= i < |Items(f)| && Items(f)[i].Slot? && Items(f)[i].id == id;
    k := i;
  }

  /** Every item records the size of its value's type. */
  ghost predicate SizesRight(ty: map<Id, Type>, items: seq<Item>) {
    forall k | 0 <= k < |items| && items[k].Slot? :: items[k].size == SizeOf(ty, items[k].id)
  }

  lemma {:induction false} ArgSizes(ty: map<Id, Type>, args: seq<Id>)
    ensures SizesRight(ty, ArgItems(ty, args))
  {
    if args != [] {
      ArgSizes(ty, args[1..]);
    }
  }

  lemma {:induction false} PhiSizes(ty: map<Id, Type>, phis: seq<Phi>)
    ensures SizesRight(ty, PhiItems(ty, phis))
  {
    if phis != [] {
      PhiSizes(ty, phis[1..]);
    }
  }

  lemma {:induction false} InstSizes(ty: map<Id, Type>, insts: seq<Inst>)
    ensures SizesRight(ty, InstItems(ty, insts))
  {
    if insts != [] {
      InstSizes(ty, insts[1..]);
    }
  }

  lemma {:induction false} BlockSizes(f: Function, blocks: seq<Block>)
    ensures SizesRight(f.ty, BlockItems(f, blocks))
  {
    if blocks != [] {
      var b := blocks[0];
      if b in f.phis && b in f.body {
        PhiSizes(f.ty, f.phis[b]);
        InstSizes(f.ty, f.body[b]);
      }
      BlockSizes(f, blocks[1..]);
    }
  }

  lemma FrameAtLeast(f: Function, off: map<Id, int>, frameSize: nat)
    requires Allocated(f, off, frameSize)
    ensures frameSize >= 16
  {
    hide Stacked, Items, Total;
  }

  /** The allocation gives a sound frame layout, wherever the frame is. */
  lemma AllocatedLayout(f: Function, off: map<Id, int>, frameSize: nat, l: Layout)
    requires Allocated(f, off, frameSize) && Typed(f, off) && Room(l.fp, frameSize)
    requires l.off == off && l.ty == f.ty && l.sp == l.fp - frameSize
    requires forall g | g in l.globals :: -TWO_63 <= l.globals[g] < TWO_63
    ensures LayoutOk(l)
  {
    hide Total, Items, Allocated, SizeOf;
    FrameAtLeast(f, off, frameSize);
    ArgSizes(f.ty, f.args);
    BlockSizes(f, f.blocks);
    SizesAll(f);
    forall i | i in off ensures l.sp <= l.fp + off[i] && off[i] + Size(l.ty[i]) <= -16 {
      var k := SlotIndex(f, off, frameSize, i);
      SlotSize(f, k);
      ItemsApart(f, off, frameSize, k, k);
    }
    forall i, j | i in off && j in off && i != j ensures SlotsApart(off, l.ty, i, j) {
      var k := SlotIndex(f, off, frameSize, i);
      var n := SlotIndex(f, off, frameSize, j);
      SlotSize(f, k);
      SlotSize(f, n);
      ItemsApart(f, off, frameSize, k, n);
      ItemsApart(f, off, frameSize, n, k);
    }
  }

  lemma SizesAll(f: Function)
    requires SizesRight(f.ty, ArgItems(f.ty, f.args)) && SizesRight(f.ty, BlockItems(f, f.blocks))
    ensures SizesRight(f.ty, Items(f))
  {
  }

  lemma SlotSize(f: Function, k: nat)
    requires SizesRight(f.ty, Items(f)) && k < |Items(f)| && Items(f)[k].Slot?
    ensures Items(f)[k].size == SizeOf(f.ty, Items(f)[k].id)
    ensures Items(f)[k].id in f.ty ==> Items(f)[k].size == Size(f.ty[Items(f)[k].id])
  {
  }

  /** An alloca's body belongs to the program: no slot and no saved register is in it. */
  lemma BodyPublic(f: Function, off: map<Id, int>, frameSize: nat, l: Layout, k: nat)
    requires Allocated(f, off, frameSize) && Typed(f, off) && Room(l.fp, frameSize)
    requires l.off == off && l.ty == f.ty && l.sp == l.fp - frameSize
    requires k < |Items(f)| && Items(f)[k].Body?
    ensures Items(f)[k].id in off
    ensures PublicRange(l, l.fp + off[Items(f)[k].id] - Items(f)[k].size, Items(f)[k].size)
  {
    hide Total, Items, Allocated, SizeOf;
    var id, size := Items(f)[k].id, Items(f)[k].size;
    ArgSizes(f.ty, f.args);
    BlockSizes(f, f.blocks);
    SizesAll(f);
    ItemsApart(f, off, frameSize, k, k);
    var a := l.fp + off[id] - size;
    forall b | a <= b < a + size ensures !Private(l, b) {
      forall i | i in off ensures !(l.fp + off[i] <= b < l.fp + off[i] + Size(l.ty[i])) {
        var n := SlotIndex(f, off, frameSize, i);
        SlotSize(f, n);
        ItemsApart(f, off, frameSize, k, n);
        ItemsApart(f, off, frameSize, n, k);
      }
    }
  }
}
