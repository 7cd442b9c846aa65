/** Every function of the passes whose operations have the operands that they need has a typed form for the code generator. */
module TypedForm {
  import opened Common
  import opened Cfg
  import Ir
  import Ssa
  import opened Frame
  import opened LowIr
  import opened Allocation
  import opened Fragments
  import opened Emission
  import opened MachineRun
  import opened Lowering

  /** What is not in the function itself: the identities of its arguments, where its arrays are, and which callees give no result. */
  datatype Choice = Choice(args: seq<Id>, sites: Sites, voids: set<int>)

  function OperandOf(k: Choice, v: Ir.Val): Operand {
    match v
    case Const(c) => Int(c)
    case Arg(n) => if 0 <= n < |k.args| then Var(k.args[n]) else Global(n - |k.args|)
    case Res(id) => Var(id)
  }

  function OperandsOf(k: Choice, vs: seq<Ir.Val>): (os: seq<Operand>)
    ensures |os| == |vs| && forall i | 0 <= i < |vs| :: os[i] == OperandOf(k, vs[i])
  {
    seq(|vs|, i requires 0 <= i < |vs| => OperandOf(k, vs[i]))
  }

  function TypeOfOp(op: Ir.Opcode): Type {
    match op
    case Icmp(_) => I1
    case Gep => Ptr
    case Alloca(_) => Ptr
    case _ => I32
  }

  /** The operands that an operation needs, and an array for an alloca. */
  predicate OperandsRight(k: Choice, instr: Ir.Instr) {
    instr.Op? &&
    match instr.op
    case Zext => |instr.args| == 1
    case LoadPtr => |instr.args| == 1
    case Alloca(site) => site in k.sites && k.sites[site].0 == instr.id
    case Gep => |instr.args| == 2 || |instr.args| == 3
    case Call(_) => true
    case _ => |instr.args| == 2
  }

  function InstOf(k: Choice, instr: Ir.Instr): Inst
    requires OperandsRight(k, instr)
  {
    var vs := OperandsOf(k, instr.args);
    match instr.op
    case Add => Binary(instr.id, LowIr.Add, vs[0], vs[1])
    case Sub => Binary(instr.id, LowIr.Sub, vs[0], vs[1])
    case Mul => Binary(instr.id, LowIr.Mul, vs[0], vs[1])
    case Sdiv => Binary(instr.id, LowIr.Sdiv, vs[0], vs[1])
    case Icmp(cmp) => Compare(instr.id, cmp, vs[0], vs[1])
    case Zext => LowIr.Zext(instr.id, vs[0])
    case Alloca(site) => LowIr.Alloca(instr.id, k.sites[site].1)
    case Gep => if |vs| == 2 then GepElement(instr.id, vs[0], vs[1], 4) else GepArray(instr.id, vs[0], Int(0), vs[2], 4, 4)
    case LoadPtr => Load(instr.id, vs[0])
    case StorePtr => Store(vs[0], vs[1])
    case Call(callee) => LowIr.Call(if callee in k.voids then None else Some(instr.id), callee, vs)
  }

  function PhiOf(k: Choice, phi: Ir.Phi): Phi {
    Phi(phi.id, seq(|phi.pairs|, i requires 0 <= i < |phi.pairs| => (OperandOf(k, phi.pairs[i].0), phi.pairs[i].1)))
  }

  function TermOf(k: Choice, t: Ir.Term): Term {
    match t
    case Br(b) => Br(b)
    case CondBr(v, b, c) => CondBr(OperandOf(k, v), b, c)
    case Ret(v) => Ret(if v.Some? then Some(OperandOf(k, v.value)) else None)
  }

  /** The types of the values of a block. */
  ghost predicate TypesRight(f: Ir.Func, k: Choice, ty: map<Id, Type>) {
    && (forall id, b, i | Ir.DefinedAt(f, id, b, i) && f.body[b][i].Op? :: id in ty && ty[id] == TypeOfOp(f.body[b][i].op))
    && (forall id, b, i | Ir.PhiAt(f, id, b, i) :: id in ty && ty[id] == I32)
    && forall id | id in k.args :: id in ty
  }

  /** What is stored is an int, not an address or a comparison. */
  ghost predicate StoresInts(f: Ir.Func, k: Choice, ty: map<Id, Type>) {
    forall b, i | b in f.graph.blocks && b in f.body && 0 <= i < |f.body[b]| && f.body[b][i].Op? && f.body[b][i].op.StorePtr? && |f.body[b][i].args| == 2 ::
      match OperandOf(k, f.body[b][i].args[0]) case Int(_) => true case Global(_) => false case Var(id) => id in ty && ty[id] == I32
  }

  /** No operand is used whose identity is that of an argument. */
  ghost predicate Apart(f: Ir.Func, k: Choice, v: Ir.Val) {
    v.Res? ==> v.id !in k.args
  }

  ghost predicate NamesApart(f: Ir.Func, k: Choice) {
    && (forall i, j | 0 <= i < j < |k.args| :: k.args[i] != k.args[j])
    && (forall id, b, i | id in k.args :: !Ir.DefinedAt(f, id, b, i) && !Ir.PhiAt(f, id, b, i))
    && (forall b, i, v | b in f.graph.blocks && b in f.body && 0 <= i < |f.body[b]| && v in Ir.Uses(f.body[b][i]) :: Apart(f, k, v))
    && (forall b, v | b in f.graph.blocks && b in f.term && v in Ir.TermUses(f.term[b]) :: Apart(f, k, v))
    && forall b, i, j | b in f.graph.blocks && b in f.phis && 0 <= i < |f.phis[b]| && 0 <= j < |f.phis[b][i].pairs| :: Apart(f, k, f.phis[b][i].pairs[j].0)
  }

  ghost predicate AllRight(f: Ir.Func, k: Choice) {
    forall b, i | b in f.graph.blocks && b in f.body && 0 <= i < |f.body[b]| :: OperandsRight(k, f.body[b][i])
  }

  ghost function FormOf(f: Ir.Func, k: Choice, ty: map<Id, Type>): Function
    requires Ir.WellFormedFunc(f) && AllRight(f, k)
  {
    Function(k.args, f.graph.blocks,
             map b | b in f.graph.blocks :: seq(|f.phis[b]|, i requires 0 <= i < |f.phis[b]| => PhiOf(k, f.phis[b][i])),
             map b | b in f.graph.blocks :: seq(|f.body[b]|, i requires 0 <= i < |f.body[b]| => InstOf(k, f.body[b][i])),
             map b | b in f.graph.blocks :: TermOf(k, f.term[b]),
             ty)
  }

  lemma OperandRight(f: Ir.Func, k: Choice, h: Function, v: Ir.Val)
    requires h.args == k.args && Apart(f, k, v)
    ensures OperandIs(h, v, OperandOf(k, v))
  {
  }

  lemma InstRight(f: Ir.Func, k: Choice, h: Function, ty: map<Id, Type>, b: Block, i: nat)
    requires b in f.graph.blocks && b in f.body && i < |f.body[b]| && OperandsRight(k, f.body[b][i])
    requires h.args == k.args && h.ty == ty && TypesRight(f, k, ty) && StoresInts(f, k, ty) && NamesApart(f, k)
    ensures InstIs(h, k.sites, f.body[b][i], InstOf(k, f.body[b][i]))
  {
    hide OperandIs, Apart;
    var instr := f.body[b][i];
    assert Ir.DefinedAt(f, instr.id, b, i);
    forall j | 0 <= j < |instr.args| ensures OperandIs(h, instr.args[j], OperandOf(k, instr.args[j])) {
      assert instr.args[j] in Ir.Uses(instr);
      OperandRight(f, k, h, instr.args[j]);
    }
  }

  lemma PhisRight(f: Ir.Func, k: Choice, ty: map<Id, Type>, b: Block)
    requires Ir.WellFormedFunc(f) && AllRight(f, k) && NamesApart(f, k) && b in f.graph.blocks
    ensures PhisAre(FormOf(f, k, ty), f.phis[b], FormOf(f, k, ty).phis[b])
  {
    hide OperandOf, OperandIs, Apart, AllRight, InstOf, TermOf;
    var h := FormOf(f, k, ty);
    forall i, j | 0 <= i < |f.phis[b]| && 0 <= j < |f.phis[b][i].pairs| ensures OperandIs(h, f.phis[b][i].pairs[j].0, OperandOf(k, f.phis[b][i].pairs[j].0)) {
      OperandRight(f, k, h, f.phis[b][i].pairs[j].0);
    }
  }

  lemma TermRight(f: Ir.Func, k: Choice, h: Function, b: Block)
    requires NamesApart(f, k) && b in f.graph.blocks && b in f.term && h.args == k.args
    ensures TermIs(h, f.term[b], TermOf(k, f.term[b]))
  {
    hide OperandOf, OperandIs, Apart;
    forall v | v in Ir.TermUses(f.term[b]) ensures OperandIs(h, v, OperandOf(k, v)) {
      OperandRight(f, k, h, v);
    }
  }

  lemma BlockRight(f: Ir.Func, k: Choice, ty: map<Id, Type>, b: Block)
    requires Ir.WellFormedFunc(f) && AllRight(f, k) && TypesRight(f, k, ty) && StoresInts(f, k, ty) && NamesApart(f, k) && b in f.graph.blocks
    ensures var h := FormOf(f, k, ty); HasBlocks(h) && BlockIs(f, h, k.sites, b)
  {
    hide OperandOf, OperandIs, OperandsRight, InstOf, TermOf, PhiOf, InstIs, TermIs, PhisAre, TypesRight, StoresInts, NamesApart;
    var h := FormOf(f, k, ty);
    PhisRight(f, k, ty, b);
    TermRight(f, k, h, b);
    forall i | 0 <= i < |f.body[b]| ensures InstIs(h, k.sites, f.body[b][i], h.body[b][i]) {
      InstRight(f, k, h, ty, b, i);
    }
  }

  /** What is named only is defined by an instruction that has no value in the typed form. */
  lemma NamedAt(f: Ir.Func, k: Choice, ty: map<Id, Type>, id: Id)
    requires Ir.WellFormedFunc(f) && AllRight(f, k) && NameOnly(f, FormOf(f, k, ty), id)
    ensures exists b, i :: Ir.DefinedAt(f, id, b, i) && Defined(InstOf(k, f.body[b][i])).None?
  {
    hide OperandOf, PhiOf, TermOf, InstOf;
    var h := FormOf(f, k, ty);
    var c, j :| c in f.body && c in h.body && 0 <= j < |f.body[c]| && j < |h.body[c]| && f.body[c][j].Op? && f.body[c][j].id == id && Defined(h.body[c][j]).None?;
    assert Ir.DefinedAt(f, id, c, j);
  }

  lemma ValueFresh(f: Ir.Func, k: Choice, ty: map<Id, Type>, b: Block, i: nat)
    requires Ir.WellFormedFunc(f) && AllRight(f, k) && Ssa.IdsApart(f) && NamesApart(f, k)
    requires b in f.graph.blocks && i < |f.body[b]| && Defined(InstOf(k, f.body[b][i])).Some?
    ensures FreshValue(f, FormOf(f, k, ty), Defined(InstOf(k, f.body[b][i])).value)
  {
    hide OperandOf, PhiOf, TermOf, NameOnly;
    var id := Defined(InstOf(k, f.body[b][i])).value;
    assert Ir.DefinedAt(f, id, b, i);
    if NameOnly(f, FormOf(f, k, ty), id) {
      NamedAt(f, k, ty, id);
    }
  }

  lemma PhiFresh(f: Ir.Func, k: Choice, ty: map<Id, Type>, id: Id, b: Block, i: int)
    requires Ir.WellFormedFunc(f) && AllRight(f, k) && Ssa.IdsApart(f) && NamesApart(f, k) && Ir.PhiAt(f, id, b, i)
    ensures FreshValue(f, FormOf(f, k, ty), id)
  {
    hide OperandOf, PhiOf, TermOf, InstOf, NameOnly;
    if NameOnly(f, FormOf(f, k, ty), id) {
      NamedAt(f, k, ty, id);
    }
  }

  lemma ArgsNamed(f: Ir.Func, k: Choice, ty: map<Id, Type>)
    requires Ir.WellFormedFunc(f) && AllRight(f, k) && NamesApart(f, k)
    ensures forall id | id in k.args :: !NameOnly(f, FormOf(f, k, ty), id)
  {
    hide OperandOf, PhiOf, TermOf, InstOf, NameOnly, FormOf;
    forall id | id in k.args ensures !NameOnly(f, FormOf(f, k, ty), id) {
      if NameOnly(f, FormOf(f, k, ty), id) {
        NamedAt(f, k, ty, id);
      }
    }
  }

  lemma FormParts(f: Ir.Func, k: Choice, ty: map<Id, Type>, b: Block)
    requires Ir.WellFormedFunc(f) && AllRight(f, k) && b in f.graph.blocks
    ensures var h := FormOf(f, k, ty);
            && b in h.phis && |h.phis[b]| == |f.phis[b]| && (forall i | 0 <= i < |f.phis[b]| :: h.phis[b][i].id == f.phis[b][i].id)
            && b in h.body && |h.body[b]| == |f.body[b]| && forall i | 0 <= i < |f.body[b]| :: h.body[b][i] == InstOf(k, f.body[b][i])
  {
    hide OperandOf, TermOf, InstOf;
  }

  lemma ControlRight(f: Ir.Func, k: Choice, ty: map<Id, Type>)
    requires Ir.WellFormedFunc(f) && AllRight(f, k) && Ssa.IdsApart(f) && NoDuplicates(f.graph.blocks)
    ensures var h := FormOf(f, k, ty); HasBlocks(h) && ControlOk(h)
  {
    hide OperandOf, InstOf, NoDuplicates;
    var h := FormOf(f, k, ty);
    forall b, t | b in h.blocks && t in Targets(h.term[b]) ensures t in h.blocks {
      assert t in f.graph.succ[b];
    }
    forall b, c, i, j | b in h.phis && c in h.phis && b != c && 0 <= i < |h.phis[b]| && 0 <= j < |h.phis[c]| ensures h.phis[b][i].id != h.phis[c][j].id {
      assert Ir.PhiAt(f, f.phis[b][i].id, b, i) && Ir.PhiAt(f, f.phis[c][j].id, c, j);
    }
  }

  /** The typed form that the theorems about the machine ask for exists. */
  lemma FormExists(f: Ir.Func, k: Choice, ty: map<Id, Type>)
    requires Ir.WellFormedFunc(f) && Ssa.IdsApart(f) && NoDuplicates(f.graph.blocks) && f.graph.blocks[0] == f.graph.entry
    requires AllRight(f, k) && TypesRight(f, k, ty) && StoresInts(f, k, ty) && NamesApart(f, k)
    ensures Lowered(f, FormOf(f, k, ty), k.sites)
  {
    hide FormOf, InstOf, TypesRight, StoresInts, BlockIs, ControlOk, NameOnly, FreshValue, Ssa.IdsApart, NoDuplicates, AllRight, WellFormed;
    var h := FormOf(f, k, ty);
    FormIs(f, k, ty);
    ControlRight(f, k, ty);
    ArgsNamed(f, k, ty);
    forall b | b in h.blocks ensures BlockIs(f, h, k.sites, b) {
      BlockRight(f, k, ty, b);
    }
    forall b, i | b in h.blocks && 0 <= i < |h.body[b]| && Defined(h.body[b][i]).Some? ensures FreshValue(f, h, Defined(h.body[b][i]).value) {
      FormParts(f, k, ty, b);
      ValueFresh(f, k, ty, b, i);
    }
    forall b, i | b in h.blocks && b in h.phis && 0 <= i < |h.phis[b]| ensures FreshValue(f, h, h.phis[b][i].id) {
      FormParts(f, k, ty, b);
      PhiFresh(f, k, ty, h.phis[b][i].id, b, i);
    }
  }

  lemma FormIs(f: Ir.Func, k: Choice, ty: map<Id, Type>)
    requires Ir.WellFormedFunc(f) && AllRight(f, k)
    ensures var h := FormOf(f, k, ty); h.args == k.args && h.ty == ty && h.blocks == f.graph.blocks && f.graph.blocks != [] && HasBlocks(h)
  {
    hide InstOf, PhiOf, TermOf;
  }

  // ----- the generator takes it -----

  ghost predicate HasSlot(items: seq<Item>, id: Id) {
    exists item :: item in items && item.Slot? && item.id == id
  }

  lemma JoinedSlots(a: seq<Item>, b: seq<Item>)
    ensures forall id :: HasSlot(a + b, id) <==> HasSlot(a, id) || HasSlot(b, id)
  {
    forall id ensures HasSlot(a + b, id) <==> HasSlot(a, id) || HasSlot(b, id) {
      assert forall x :: x in a + b <==> x in a || x in b;
    }
  }

  lemma {:induction false} ArgSlots(ty: map<Id, Type>, args: seq<Id>)
    ensures forall id | id in args :: HasSlot(ArgItems(ty, args), id)
    decreases |args|
  {
    if args != [] {
      ArgSlots(ty, args[1..]);
      var first := [Slot(args[0], SizeOf(ty, args[0]))];
      JoinedSlots(first, ArgItems(ty, args[1..]));
      assert first[0] in first;
    }
  }

  lemma {:induction false} PhiSlots(ty: map<Id, Type>, phis: seq<Phi>)
    ensures forall i | 0 <= i < |phis| :: HasSlot(PhiItems(ty, phis), phis[i].id)
    decreases |phis|
  {
    if phis != [] {
      PhiSlots(ty, phis[1..]);
      var first := [Slot(phis[0].id, SizeOf(ty, phis[0].id))];
      JoinedSlots(first, PhiItems(ty, phis[1..]));
      assert first[0] in first;
      forall i | 0 <= i < |phis| ensures HasSlot(PhiItems(ty, phis), phis[i].id) {
        assert i > 0 ==> phis[1..][i - 1] == phis[i];
      }
    }
  }

  lemma {:induction false} InstSlots(ty: map<Id, Type>, insts: seq<Inst>)
    ensures forall i | 0 <= i < |insts| && Defined(insts[i]).Some? :: HasSlot(InstItems(ty, insts), Defined(insts[i]).value)
    decreases |insts|
  {
    hide Defined;
    if insts != [] {
      InstSlots(ty, insts[1..]);
      var first := ItemsOf(ty, insts[0]);
      JoinedSlots(first, InstItems(ty, insts[1..]));
      assert Defined(insts[0]).Some? ==> first[0] in first;
      forall i | 0 <= i < |insts| && Defined(insts[i]).Some? ensures HasSlot(InstItems(ty, insts), Defined(insts[i]).value) {
        assert i > 0 ==> insts[1..][i - 1] == insts[i];
      }
    }
  }

  lemma {:induction false} BlockSlots(f: Function, blocks: seq<Block>, b: Block)
    requires b in blocks
    ensures forall id | HasSlot(ItemsIn(f, b), id) :: HasSlot(BlockItems(f, blocks), id)
    decreases |blocks|
  {
    hide ItemsIn, HasSlot;
    JoinedSlots(ItemsIn(f, blocks[0]), BlockItems(f, blocks[1..]));
    if b != blocks[0] {
      BlockSlots(f, blocks[1..], b);
    }
  }

  /** Every argument, every phi and every value of an instruction has a slot. */
  lemma SlotForAll(f: Function, b: Block, i: nat, id: Id)
    requires HasBlocks(f) && b in f.blocks
    requires id in f.args || (i < |f.phis[b]| && f.phis[b][i].id == id) || (i < |f.body[b]| && Defined(f.body[b][i]) == Some(id))
    ensures id in SlotIds(Items(f))
  {
    hide Defined, ArgItems, PhiItems, InstItems, BlockItems;
    JoinedSlots(ArgItems(f.ty, f.args), BlockItems(f, f.blocks));
    ArgSlots(f.ty, f.args);
    JoinedSlots(PhiItems(f.ty, f.phis[b]), InstItems(f.ty, f.body[b]));
    PhiSlots(f.ty, f.phis[b]);
    InstSlots(f.ty, f.body[b]);
    BlockSlots(f, f.blocks, b);
    assert HasSlot(Items(f), id);
  }

  /** The value is computed: by a phi, or by an operation that has one. */
  ghost predicate Computed(f: Ir.Func, k: Choice, id: Id)
    requires Ir.WellFormedFunc(f) && AllRight(f, k)
  {
    || (exists b, i :: Ir.PhiAt(f, id, b, i))
    || exists b, i :: b in f.graph.blocks && 0 <= i < |f.body[b]| && Defined(InstOf(k, f.body[b][i])) == Some(id)
  }

  ghost predicate OperandFine(f: Ir.Func, k: Choice, v: Ir.Val)
    requires Ir.WellFormedFunc(f) && AllRight(f, k)
  {
    match v
    case Const(c) => -0x8000_0000 <= c < 0x8000_0000
    case Arg(_) => true
    case Res(id) => Computed(f, k, id)
  }

  /** Constants have 32 bits, what is used is computed somewhere, and calls have eight arguments at most. */
  ghost predicate OperandsFine(f: Ir.Func, k: Choice)
    requires Ir.WellFormedFunc(f) && AllRight(f, k)
  {
    && (forall b, i, v | b in f.graph.blocks && 0 <= i < |f.body[b]| && v in Ir.Uses(f.body[b][i]) :: OperandFine(f, k, v))
    && (forall b, v | b in f.graph.blocks && v in Ir.TermUses(f.term[b]) :: OperandFine(f, k, v))
    && (forall b, i, j | b in f.graph.blocks && 0 <= i < |f.phis[b]| && 0 <= j < |f.phis[b][i].pairs| :: OperandFine(f, k, f.phis[b][i].pairs[j].0))
    && forall b, i | b in f.graph.blocks && 0 <= i < |f.body[b]| && f.body[b][i].Op? && f.body[b][i].op.Call? :: |f.body[b][i].args| <= 8
  }

  lemma ComputedSlot(f: Ir.Func, k: Choice, ty: map<Id, Type>, id: Id)
    requires Ir.WellFormedFunc(f) && AllRight(f, k) && TypesRight(f, k, ty) && Computed(f, k, id)
    ensures id in SlotIds(Items(FormOf(f, k, ty))) && id in ty
  {
    hide FormOf, InstOf, SlotIds, Items, OperandsRight;
    var h := FormOf(f, k, ty);
    FormIs(f, k, ty);
    if b, i :| Ir.PhiAt(f, id, b, i) {
      FormParts(f, k, ty, b);
      SlotForAll(h, b, i, id);
    } else {
      var b, i :| b in f.graph.blocks && 0 <= i < |f.body[b]| && Defined(InstOf(k, f.body[b][i])) == Some(id);
      FormParts(f, k, ty, b);
      SlotForAll(h, b, i, id);
      DefinedKept(f, k, b, i, id);
    }
  }

  lemma DefinedKept(f: Ir.Func, k: Choice, b: Block, i: nat, id: Id)
    requires b in f.graph.blocks && b in f.body && i < |f.body[b]| && OperandsRight(k, f.body[b][i]) && Defined(InstOf(k, f.body[b][i])) == Some(id)
    ensures Ir.DefinedAt(f, id, b, i) && f.body[b][i].Op?
  {
    hide OperandOf;
  }

  lemma OperandPlaced(f: Ir.Func, k: Choice, ty: map<Id, Type>, v: Ir.Val)
    requires Ir.WellFormedFunc(f) && AllRight(f, k) && TypesRight(f, k, ty) && OperandFine(f, k, v)
    ensures Placed(SlotIds(Items(FormOf(f, k, ty))), ty, OperandOf(k, v))
  {
    hide FormOf, InstOf, SlotIds, Items, AllRight, Computed;
    var h := FormOf(f, k, ty);
    FormIs(f, k, ty);
    match v
    case Const(c) =>
    case Arg(n) =>
      if 0 <= n < |k.args| {
        assert h.blocks[0] in h.blocks;
        SlotForAll(h, h.blocks[0], 0, k.args[n]);
      }
    case Res(id) => ComputedSlot(f, k, ty, id);
  }

  lemma InstReady(f: Ir.Func, k: Choice, ty: map<Id, Type>, b: Block, i: nat)
    requires Ir.WellFormedFunc(f) && AllRight(f, k) && TypesRight(f, k, ty) && OperandsFine(f, k) && b in f.graph.blocks && i < |f.body[b]|
    ensures Ready(SlotIds(Items(FormOf(f, k, ty))), ty, InstOf(k, f.body[b][i]))
  {
    hide FormOf, SlotIds, Items, TypesRight, OperandFine, Placed, OperandOf, Computed;
    var instr, ids := f.body[b][i], SlotIds(Items(FormOf(f, k, ty)));
    forall j | 0 <= j < |instr.args| ensures Placed(ids, ty, OperandOf(k, instr.args[j])) {
      assert instr.args[j] in Ir.Uses(instr);
      OperandPlaced(f, k, ty, instr.args[j]);
    }
    if Defined(InstOf(k, instr)).Some? {
      ComputedHere(f, k, b, i);
      ComputedSlot(f, k, ty, Defined(InstOf(k, instr)).value);
    }
    ZeroPlaced(ids, ty);
  }

  lemma ZeroPlaced(ids: set<Id>, ty: map<Id, Type>)
    ensures Placed(ids, ty, Int(0))
  {
  }

  lemma ComputedHere(f: Ir.Func, k: Choice, b: Block, i: nat)
    requires Ir.WellFormedFunc(f) && AllRight(f, k) && b in f.graph.blocks && i < |f.body[b]| && Defined(InstOf(k, f.body[b][i])).Some?
    ensures Computed(f, k, Defined(InstOf(k, f.body[b][i])).value)
  {
    hide InstOf;
  }

  lemma PhisPlaced(f: Ir.Func, k: Choice, ty: map<Id, Type>)
    requires Ir.WellFormedFunc(f) && AllRight(f, k) && TypesRight(f, k, ty) && OperandsFine(f, k)
    ensures PhisReady(SlotIds(Items(FormOf(f, k, ty))), FormOf(f, k, ty))
  {
    hide SlotIds, Items, OperandFine, Placed, OperandOf, InstOf, TermOf, AllRight;
    var h := FormOf(f, k, ty);
    forall b, i | b in h.phis && 0 <= i < |h.phis[b]| ensures h.phis[b][i].id in SlotIds(Items(h)) && h.phis[b][i].id in ty {
      FormParts(f, k, ty, b);
      FormIs(f, k, ty);
      assert Ir.PhiAt(f, h.phis[b][i].id, b, i);
      SlotForAll(h, b, i, h.phis[b][i].id);
    }
    forall b, i, j | b in h.phis && 0 <= i < |h.phis[b]| && 0 <= j < |h.phis[b][i].pairs| ensures Placed(SlotIds(Items(h)), ty, h.phis[b][i].pairs[j].0) {
      OperandPlaced(f, k, ty, f.phis[b][i].pairs[j].0);
    }
  }

  /** The generator accepts the typed form. */
  lemma FormReady(f: Ir.Func, k: Choice, ty: map<Id, Type>)
    requires Ir.WellFormedFunc(f) && NoDuplicates(f.graph.blocks) && AllRight(f, k) && TypesRight(f, k, ty) && OperandsFine(f, k)
    ensures FunctionReady(FormOf(f, k, ty), SlotIds(Items(FormOf(f, k, ty))))
  {
    hide FormOf, SlotIds, Items, Placed, Ready, PhisReady, TypesRight, OperandsFine, AllRight, InstOf, NoDuplicates;
    var h := FormOf(f, k, ty);
    FormIs(f, k, ty);
    PhisPlaced(f, k, ty);
    ArgsReady(f, k, ty);
    forall b, i | b in h.blocks && 0 <= i < |h.body[b]| ensures Ready(SlotIds(Items(h)), h.ty, h.body[b][i]) {
      FormParts(f, k, ty, b);
      InstReady(f, k, ty, b, i);
    }
    forall b | b in h.blocks
      ensures h.term[b].CondBr? ==> Placed(SlotIds(Items(h)), h.ty, h.term[b].cond)
      ensures h.term[b].Ret? && h.term[b].val.Some? ==> Placed(SlotIds(Items(h)), h.ty, h.term[b].val.value)
    {
      TermReady(f, k, ty, b);
    }
  }

  lemma ArgsReady(f: Ir.Func, k: Choice, ty: map<Id, Type>)
    requires Ir.WellFormedFunc(f) && AllRight(f, k) && TypesRight(f, k, ty)
    ensures forall id | id in k.args :: id in SlotIds(Items(FormOf(f, k, ty))) && id in ty
  {
    hide FormOf, SlotIds, Items, AllRight;
    var h := FormOf(f, k, ty);
    FormIs(f, k, ty);
    forall id | id in k.args ensures id in SlotIds(Items(h)) {
      assert h.blocks[0] in h.blocks;
      SlotForAll(h, h.blocks[0], 0, id);
    }
  }

  lemma TermReady(f: Ir.Func, k: Choice, ty: map<Id, Type>, b: Block)
    requires Ir.WellFormedFunc(f) && AllRight(f, k) && TypesRight(f, k, ty) && OperandsFine(f, k) && b in f.graph.blocks
    ensures var h := FormOf(f, k, ty);
            && b in h.term && (h.term[b].CondBr? ==> Placed(SlotIds(Items(h)), h.ty, h.term[b].cond))
            && (h.term[b].Ret? && h.term[b].val.Some? ==> Placed(SlotIds(Items(h)), h.ty, h.term[b].val.value))
  {
    hide SlotIds, Items, Placed, OperandOf, InstOf, PhiOf, TypesRight, AllRight, OperandFine;
    forall v | v in Ir.TermUses(f.term[b]) ensures Placed(SlotIds(Items(FormOf(f, k, ty))), ty, OperandOf(k, v)) {
      OperandPlaced(f, k, ty, v);
    }
  }
}
