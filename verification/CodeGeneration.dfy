/** The code generator for one function: frame allocation, loads and stores of value
    slots, one code fragment per instruction, phi copies, prologue and epilogue. */
module CodeGeneration {
  import opened Common
  import opened Cfg
  import opened LoongArch
  import opened Frame
  import opened LowIr
  import opened Fragments
  import opened Arithmetic
  import opened Allocation
  import opened PhiCopies
  import opened Emission
  import opened MachineRun

  class CodeGen {
    var frameSize: nat
    var offsetMap: map<Id, int>
    var output: seq<Asm>

    constructor ()
      ensures output == [] && offsetMap == map[] && frameSize == 0
    {
      output, offsetMap, frameSize := [], map[], 0;
    }

    /** Slots for arguments, then for the values of each block in order, with the bodies of allocas. */
    method Allocate(f: Function)
      requires HasBlocks(f) && SlotsDistinct(Items(f)) && offsetMap == map[]
      modifies this`offsetMap, this`frameSize
      ensures Allocated(f, offsetMap, frameSize)
    {
      hide SlotsDistinct, Stacked, Total, Align, Allocated, ArgItems, BlockItems, ItemsIn, SizeOf;
      var offset := PROLOGUE_OFFSET_BASE;
      ghost var items: seq<Item> := [];
      StackedStart();
      var i := 0;
      assert f.args[0..] == f.args;
      while i < |f.args|
        invariant 0 <= i <= |f.args| && Stacked(items, offsetMap, offset)
        invariant items + ArgItems(f.ty, f.args[i..]) + BlockItems(f, f.blocks) == Items(f)
      {
        ArgItemsNext(f.ty, f.args, i);
        var id := f.args[i];
        ghost var rest := ArgItems(f.ty, f.args[i + 1..]) + BlockItems(f, f.blocks);
        items, offset := AllocateSlot(id, SizeOf(f.ty, id), offset, items, Items(f), rest);
        i := i + 1;
      }
      NoArgsLeft(f);
      i := 0;
      assert f.blocks[0..] == f.blocks;
      while i < |f.blocks|
        invariant 0 <= i <= |f.blocks| && Stacked(items, offsetMap, offset)
        invariant items + BlockItems(f, f.blocks[i..]) == Items(f)
      {
        BlockItemsNext(f, f.blocks, i);
        items, offset := AllocateBlock(f, f.blocks[i], offset, items, BlockItems(f, f.blocks[i + 1..]));
        i := i + 1;
      }
      NoBlocksLeft(f);
      assert items == Items(f);
      AllocationDone(f, offsetMap, offset);
      frameSize := Align(offset, PROLOGUE_ALIGN);
    }

    method AllocateSlot(id: Id, size: nat, offset: nat, ghost items: seq<Item>, ghost all: seq<Item>, ghost rest: seq<Item>)
      returns (ghost items': seq<Item>, offset': nat)
      requires Stacked(items, offsetMap, offset) && SlotsDistinct(all) && items + [Slot(id, size)] + rest == all
      modifies this`offsetMap
      ensures items' == items + [Slot(id, size)] && Stacked(items', offsetMap, offset')
    {
      hide SlotsDistinct, Stacked;
      SlotNew(items, offsetMap, offset, all, id, size, rest);
      AddSlot(items, offsetMap, offset, id, size);
      items', offset' := items + [Slot(id, size)], offset + size;
      offsetMap := offsetMap[id := -(offset + size)];
    }

    /** The part of Allocate for one block: phis, then the other instructions. */
    method AllocateBlock(f: Function, bb: Block, offset: nat, ghost items: seq<Item>, ghost rest: seq<Item>)
      returns (ghost items': seq<Item>, offset': nat)
      requires HasBlocks(f) && SlotsDistinct(Items(f)) && bb in f.blocks && Stacked(items, offsetMap, offset)
      requires items + ItemsIn(f, bb) + rest == Items(f)
      modifies this`offsetMap
      ensures items' + rest == Items(f) && Stacked(items', offsetMap, offset')
    {
      hide SlotsDistinct, Stacked, Items, BlockItems, PhiItems, InstItems, ItemsOf, SizeOf;
      items', offset' := items, offset;
      var phis, insts := f.phis[bb], f.body[bb];
      var k := 0;
      ghost var after := InstItems(f.ty, insts) + rest;
      assert phis[0..] == phis;
      while k < |phis|
        invariant 0 <= k <= |phis| && Stacked(items', offsetMap, offset')
        invariant items' + PhiItems(f.ty, phis[k..]) + after == Items(f)
      {
        PhiItemsNext(f.ty, phis, k);
        ghost var left := PhiItems(f.ty, phis[k + 1..]) + after;
        items', offset' := AllocateSlot(phis[k].id, SizeOf(f.ty, phis[k].id), offset', items', Items(f), left);
        k := k + 1;
      }
      NoPhisLeft(f.ty, phis, insts);
      k := 0;
      while k < |insts|
        invariant 0 <= k <= |insts| && Stacked(items', offsetMap, offset')
        invariant items' + InstItems(f.ty, insts[k..]) + rest == Items(f)
      {
        InstItemsNext(f.ty, insts, k);
        items', offset' := AllocateInst(f, insts[k], offset', items', InstItems(f.ty, insts[k + 1..]) + rest);
        k := k + 1;
      }
    }

    /** A slot for the value, if there is one, and the body of an alloca below it. */
    method AllocateInst(f: Function, inst: Inst, offset: nat, ghost items: seq<Item>, ghost rest: seq<Item>)
      returns (ghost items': seq<Item>, offset': nat)
      requires SlotsDistinct(Items(f)) && Stacked(items, offsetMap, offset)
      requires items + ItemsOf(f.ty, inst) + rest == Items(f)
      modifies this`offsetMap
      ensures items' == items + ItemsOf(f.ty, inst) && Stacked(items', offsetMap, offset')
    {
      hide SlotsDistinct, Stacked, Items, SizeOf;
      items', offset' := items, offset;
      if Defined(inst).Some? {
        var id := Defined(inst).value;
        ghost var left := if inst.Alloca? then [Body(id, inst.bodySize)] + rest else rest;
        items', offset' := AllocateSlot(id, SizeOf(f.ty, id), offset', items', Items(f), left);
      }
      if inst.Alloca? {
        AddBody(items', offsetMap, offset', inst.id, inst.bodySize);
        items', offset' := items' + [Body(inst.id, inst.bodySize)], offset' + inst.bodySize;
      }
    }

    method LoadLargeInt32(val: int, reg: Reg) returns (ghost code: seq<Asm>)
      requires -TWO_31 <= val < TWO_31 && !reg.Zero?
      modifies this`output
      ensures output == old(output) + code && Plain(code) && SetsReg(code, reg, val)
    {
      hide Exec;
      var high20, low12 := val / 4096, val % 4096;
      output := output + [Lu12iW(reg, high20), Ori(reg, reg, low12)];
      code := [Lu12iW(reg, high20), Ori(reg, reg, low12)];
      forall st ensures Exec(st, code) == st.(regs := st.regs[reg := val]) {
        LargeInt32Loads(st, reg, val);
      }
    }

    method LoadLargeInt64(val: int, reg: Reg) returns (ghost code: seq<Asm>)
      requires -TWO_63 <= val < TWO_63 && !reg.Zero?
      modifies this`output
      ensures output == old(output) + code && Plain(code) && SetsReg(code, reg, val)
    {
      hide SetsReg, Middle20, Top12;
      var low32 := S32(val);
      ghost var c := LoadLargeInt32(low32, reg);
      SetsLarge64(c, reg, val);
      LargeInt64Encodable(reg, val);
      output := output + [Lu32iD(reg, Middle20(val)), Lu52iD(reg, reg, Top12(val))];
      code := c + [Lu32iD(reg, Middle20(val)), Lu52iD(reg, reg, Top12(val))];
    }

    method LoadFromStackToGreg(id: Id, reg: Reg, ty: map<Id, Type>) returns (ghost code: seq<Asm>)
      requires id in offsetMap && id in ty && IntOffsets(offsetMap) && Scratch(reg)
      modifies this`output
      ensures output == old(output) + code && Plain(code) && Loads(offsetMap, ty, code, Var(id), reg)
    {
      hide Loads, SetsReg;
      var offset := offsetMap[id];
      if Imm12(offset) {
        output := output + [Ld(WidthOf(ty[id]), reg, Fp, offset)];
        code := [Ld(WidthOf(ty[id]), reg, Fp, offset)];
        LoadsNear(offsetMap, ty, id, reg);
      } else {
        ghost var c := LoadLargeInt64(offset, reg);
        output := output + [Alu(AddD, reg, Fp, reg)];
        output := output + [Ld(WidthOf(ty[id]), reg, reg, 0)];
        code := c + [Alu(AddD, reg, Fp, reg)] + [Ld(WidthOf(ty[id]), reg, reg, 0)];
        LoadsFar(offsetMap, ty, id, reg, c);
      }
    }

    method LoadToGreg(v: Operand, reg: Reg, ty: map<Id, Type>) returns (ghost code: seq<Asm>)
      requires v.Int? ==> -TWO_31 <= v.c < TWO_31
      requires v.Var? ==> v.id in offsetMap && v.id in ty
      requires IntOffsets(offsetMap) && Scratch(reg)
      modifies this`output
      ensures output == old(output) + code && Plain(code) && Loads(offsetMap, ty, code, v, reg)
    {
      hide Loads, SetsReg;
      match v
      case Int(c) =>
        if Imm12(c) {
          output := output + [AddiW(reg, Zero, c)];
          code := [AddiW(reg, Zero, c)];
          SetsSmall(c, reg);
        } else {
          code := LoadLargeInt32(c, reg);
        }
        LoadsConst(offsetMap, ty, code, c, reg);
      case Global(g) =>
        output := output + [LaLocal(reg, g)];
        code := [LaLocal(reg, g)];
        LoadsGlobal(offsetMap, ty, g, reg);
      case Var(id) =>
        code := LoadFromStackToGreg(id, reg, ty);
    }

    method StoreFromGreg(id: Id, reg: Reg, ty: map<Id, Type>) returns (ghost code: seq<Asm>)
      requires id in offsetMap && id in ty && IntOffsets(offsetMap) && Scratch(reg) && reg != T(8)
      modifies this`output
      ensures output == old(output) + code && Plain(code) && Stores(offsetMap, ty, code, id, reg) && KeepsArgs(code)
    {
      hide Stores, SetsReg, KeepsArgs;
      var offset := offsetMap[id];
      if Imm12(offset) {
        output := output + [St(WidthOf(ty[id]), reg, Fp, offset)];
        code := [St(WidthOf(ty[id]), reg, Fp, offset)];
        StoresNear(offsetMap, ty, id, reg);
        KeepsArgsNear(code[0]);
      } else {
        ghost var c := LoadLargeInt64(offset, T(8));
        output := output + [Alu(AddD, T(8), Fp, T(8))];
        output := output + [St(WidthOf(ty[id]), reg, T(8), 0)];
        code := c + [Alu(AddD, T(8), Fp, T(8))] + [St(WidthOf(ty[id]), reg, T(8), 0)];
        StoresFar(offsetMap, ty, id, reg, c);
        KeepsArgsFar(c, offset, Alu(AddD, T(8), Fp, T(8)), St(WidthOf(ty[id]), reg, T(8), 0));
      }
    }

    method GenBinary(inst: Inst, ty: map<Id, Type>) returns (ghost code: seq<Asm>)
      requires inst.Binary? && Ready(offsetMap.Keys, ty, inst) && IntOffsets(offsetMap)
      modifies this`output
      ensures output == old(output) + code && Plain(code) && Simulates(offsetMap, ty, code, inst)
      ensures ComputesBinary(offsetMap, ty, code, inst.id, inst.op, inst.lhs, inst.rhs)
    {
      hide Loads, Stores, Simulates, ComputesBinary;
      ghost var c1 := LoadToGreg(inst.lhs, T(0), ty);
      ghost var c2 := LoadToGreg(inst.rhs, T(1), ty);
      output := output + [BinaryCode(inst.op)];
      ghost var c3 := StoreFromGreg(inst.id, T(2), ty);
      code := c1 + c2 + [BinaryCode(inst.op)] + c3;
      SimulatesBinary(offsetMap, ty, c1, c2, c3, inst.id, inst.op, inst.lhs, inst.rhs);
      BinaryComputed(offsetMap, ty, code, inst.id, inst.op, inst.lhs, inst.rhs);
    }

    method GenIcmp(inst: Inst, ty: map<Id, Type>) returns (ghost code: seq<Asm>)
      requires inst.Compare? && Ready(offsetMap.Keys, ty, inst) && IntOffsets(offsetMap)
      modifies this`output
      ensures output == old(output) + code && Plain(code) && Simulates(offsetMap, ty, code, inst)
      ensures ComputesCompare(offsetMap, ty, code, inst.id, inst.cmp, inst.lhs, inst.rhs)
    {
      hide Loads, Stores, Simulates, ComputesCompare;
      ghost var c1 := LoadToGreg(inst.lhs, T(0), ty);
      ghost var c2 := LoadToGreg(inst.rhs, T(1), ty);
      output := output + CompareCode(inst.cmp);
      ghost var c3 := StoreFromGreg(inst.id, T(0), ty);
      code := c1 + c2 + CompareCode(inst.cmp) + c3;
      SimulatesCompare(offsetMap, ty, c1, c2, c3, inst.id, inst.cmp, inst.lhs, inst.rhs);
      CompareComputed(offsetMap, ty, code, inst.id, inst.cmp, inst.lhs, inst.rhs);
    }

    method GenZext(inst: Inst, ty: map<Id, Type>) returns (ghost code: seq<Asm>)
      requires inst.Zext? && Ready(offsetMap.Keys, ty, inst) && IntOffsets(offsetMap)
      modifies this`output
      ensures output == old(output) + code && Plain(code) && Simulates(offsetMap, ty, code, inst)
      ensures ComputesZext(offsetMap, ty, code, inst.id, inst.src)
    {
      hide Loads, Stores, Simulates, ComputesZext;
      ghost var c1 := LoadToGreg(inst.src, T(0), ty);
      output := output + [BstrpickW(T(1), T(0), 0)];
      ghost var c2 := StoreFromGreg(inst.id, T(1), ty);
      code := c1 + [BstrpickW(T(1), T(0), 0)] + c2;
      SimulatesZext(offsetMap, ty, c1, c2, inst.id, inst.src);
      ZextComputed(offsetMap, ty, code, inst.id, inst.src);
    }

    /** getelementptr, with two indices into an array or one behind a pointer. */
    method GenGep(inst: Inst, ty: map<Id, Type>) returns (ghost code: seq<Asm>)
      requires (inst.GepElement? || inst.GepArray?) && Ready(offsetMap.Keys, ty, inst) && IntOffsets(offsetMap)
      modifies this`output
      ensures output == old(output) + code && Plain(code) && Simulates(offsetMap, ty, code, inst)
      ensures inst.GepElement? ==> ComputesElement(offsetMap, ty, code, inst.id, inst.base, inst.index, inst.size)
      ensures inst.GepArray? ==> ComputesArray(offsetMap, ty, code, inst.id, inst.base, inst.first, inst.arraySize, inst.second, inst.elementSize)
    {
      hide Loads, Stores, Simulates, SetsReg, ELEMENT_CODE, ComputesElement, ComputesArray;
      ghost var c1 := LoadToGreg(inst.base, T(0), ty);
      if inst.GepArray? {
        ghost var c2 := GenArrayIndex(inst, ty, c1);
        code := c1 + c2;
        ArrayComputed(offsetMap, ty, code, inst.id, inst.base, inst.first, inst.arraySize, inst.second, inst.elementSize);
      } else {
        ghost var c2 := LoadToGreg(inst.index, T(1), ty);
        ghost var c3 := LoadLargeInt32(inst.size, T(3));
        output := output + ELEMENT_CODE;
        AddressPlain();
        ghost var c4 := StoreFromGreg(inst.id, T(0), ty);
        code := c1 + c2 + c3 + ELEMENT_CODE + c4;
        SimulatesElement(offsetMap, ty, c1, c2, c3, c4, inst.id, inst.base, inst.index, inst.size);
        ElementComputed(offsetMap, ty, code, inst.id, inst.base, inst.index, inst.size);
      }
    }

    /** The part of GenGep for arrays, after the base has been loaded by c1. */
    method GenArrayIndex(inst: Inst, ty: map<Id, Type>, ghost c1: seq<Asm>) returns (ghost code: seq<Asm>)
      requires inst.GepArray? && Ready(offsetMap.Keys, ty, inst) && IntOffsets(offsetMap) && Loads(offsetMap, ty, c1, inst.base, T(0))
      modifies this`output
      ensures output == old(output) + code && Plain(code) && Simulates(offsetMap, ty, c1 + code, inst)
    {
      hide Loads, Stores, Simulates, SetsReg, ARRAY_MULS, ARRAY_PICKS, ARRAY_ADDS;
      ghost var c2 := LoadToGreg(inst.first, T(1), ty);
      ghost var c3 := LoadToGreg(inst.second, T(2), ty);
      ghost var c4 := LoadLargeInt32(inst.arraySize, T(3));
      ghost var c5 := LoadLargeInt32(inst.elementSize, T(4));
      output := output + ARRAY_MULS + ARRAY_PICKS + ARRAY_ADDS;
      ghost var c6 := StoreFromGreg(inst.id, T(0), ty);
      ghost var mid := ARRAY_MULS + ARRAY_PICKS + ARRAY_ADDS;
      code := c2 + c3 + c4 + c5 + mid + c6;
      AddressPlain();
      SimulatesArray(offsetMap, ty, c1, c2, c3, c4, c5, c6, inst.id, inst.base, inst.first, inst.second, inst.arraySize, inst.elementSize);
      SixParts(c1, c2, c3, c4, c5, mid, c6);
    }

    method GenLoad(inst: Inst, ty: map<Id, Type>) returns (ghost code: seq<Asm>)
      requires inst.Load? && Ready(offsetMap.Keys, ty, inst) && IntOffsets(offsetMap)
      modifies this`output
      ensures output == old(output) + code && Plain(code) && Simulates(offsetMap, ty, code, inst)
      ensures ComputesLoad(offsetMap, ty, code, inst.id, inst.ptr)
    {
      hide Loads, Stores, Simulates, ComputesLoad;
      ghost var c1 := LoadToGreg(inst.ptr, T(0), ty);
      output := output + [Ld(WidthOf(ty[inst.id]), T(1), T(0), 0)];
      ghost var c2 := StoreFromGreg(inst.id, T(1), ty);
      code := c1 + [Ld(WidthOf(ty[inst.id]), T(1), T(0), 0)] + c2;
      SimulatesLoad(offsetMap, ty, c1, c2, inst.id, inst.ptr);
      LoadComputed(offsetMap, ty, code, inst.id, inst.ptr);
    }

    method GenStore(inst: Inst, ty: map<Id, Type>) returns (ghost code: seq<Asm>)
      requires inst.Store? && Ready(offsetMap.Keys, ty, inst) && IntOffsets(offsetMap)
      modifies this`output
      ensures output == old(output) + code && Plain(code) && Simulates(offsetMap, ty, code, inst)
      ensures ComputesStore(offsetMap, ty, code, inst.val, inst.ptr)
    {
      hide Loads, Stores, Simulates, ComputesStore;
      ghost var c1 := LoadToGreg(inst.ptr, T(0), ty);
      ghost var c2 := LoadToGreg(inst.val, T(1), ty);
      var w := StoreWidth(ty, inst.val);
      output := output + [St(w, T(1), T(0), 0)];
      code := c1 + c2 + [St(w, T(1), T(0), 0)];
      SimulatesStore(offsetMap, ty, c1, c2, inst.val, inst.ptr, w);
      StoreComputed(offsetMap, ty, code, inst.val, inst.ptr);
    }

    /** Arguments into their registers, the call, and the result into its slot, if there is one. */
    method GenCall(inst: Inst, ty: map<Id, Type>) returns (ghost code: seq<Asm>)
      requires inst.Call? && Ready(offsetMap.Keys, ty, inst) && IntOffsets(offsetMap)
      modifies this`output
      ensures output == old(output) + code && Plain(code) && Simulates(offsetMap, ty, code, inst)
      ensures inst.result.Some? ==> ComputesCall(offsetMap, ty, code, inst.result.value, inst.callee, inst.args)
    {
      hide Loads, LoadsArgs, Stores, Simulates, ComputesCall;
      var args := inst.args;
      ghost var c1: seq<Asm> := [];
      NoArgs(offsetMap, ty);
      assert args[..0] == [];
      var n := 0;
      while n < |args|
        invariant 0 <= n <= |args| && output == old(output) + c1 && Plain(c1) && LoadsArgs(offsetMap, ty, c1, args[..n])
      {
        assert args[n] in args && args[..n + 1] == args[..n] + [args[n]];
        ghost var c := LoadToGreg(args[n], A(n), ty);
        ArgsNext(offsetMap, ty, c1, args[..n], c, args[n]);
        c1 := c1 + c;
        n := n + 1;
      }
      assert args[..n] == args;
      output := output + [Bl(inst.callee)];
      ghost var c2: seq<Asm> := [];
      if inst.result.Some? {
        c2 := StoreFromGreg(inst.result.value, A(0), ty);
      }
      code := c1 + [Bl(inst.callee)] + c2;
      SimulatesCall(offsetMap, ty, c1, c2, inst.result, inst.callee, args);
      if inst.result.Some? {
        CallComputed(offsetMap, ty, code, inst.result.value, inst.callee, args);
      }
    }

    /** The one fragment whose immediate may not fit: the code can be assembled
        if and only if the body's offset has twelve bits. */
    method GenAlloca(inst: Inst, ty: map<Id, Type>) returns (ghost code: seq<Asm>)
      requires inst.Alloca? && Ready(offsetMap.Keys, ty, inst) && IntOffsets(offsetMap)
      modifies this`output
      ensures output == old(output) + code && StraightLine(code) && Simulates(offsetMap, ty, code, inst)
      ensures AllEncodable(code) <==> Imm12(offsetMap[inst.id] - inst.bodySize)
      ensures AllEncodable(code) <==> offsetMap[inst.id] - inst.bodySize >= -2048
      ensures ComputesAlloca(offsetMap, ty, code, inst.id, inst.bodySize)
    {
      hide Loads, Stores, Simulates, ComputesAlloca;
      var offset := offsetMap[inst.id] - inst.bodySize;
      output := output + [AddiD(T(1), Fp, offset)];
      ghost var c := StoreFromGreg(inst.id, T(1), ty);
      code := [AddiD(T(1), Fp, offset)] + c;
      assert AddiD(T(1), Fp, offset) in code;
      SimulatesAlloca(offsetMap, ty, c, inst.id, inst.bodySize);
      AllocaComputed(offsetMap, ty, code, inst.id, inst.bodySize);
    }

    /** The switch over instructions. */
    method GenInst(inst: Inst, ty: map<Id, Type>) returns (ghost code: seq<Asm>)
      requires Ready(offsetMap.Keys, ty, inst) && IntOffsets(offsetMap)
      modifies this`output
      ensures output == old(output) + code && StraightLine(code) && Simulates(offsetMap, ty, code, inst)
      ensures inst.Alloca? ==> inst.id in offsetMap
      ensures AllEncodable(code) <==> (inst.Alloca? ==> Imm12(offsetMap[inst.id] - inst.bodySize))
    {
      hide Simulates;
      match inst
      case Binary(_, _, _, _) => code := GenBinary(inst, ty);
      case Compare(_, _, _, _) => code := GenIcmp(inst, ty);
      case Zext(_, _) => code := GenZext(inst, ty);
      case GepElement(_, _, _, _) => code := GenGep(inst, ty);
      case GepArray(_, _, _, _, _, _) => code := GenGep(inst, ty);
      case Load(_, _) => code := GenLoad(inst, ty);
      case Store(_, _) => code := GenStore(inst, ty);
      case Alloca(_, _) => code := GenAlloca(inst, ty);
      case Call(_, _, _) => code := GenCall(inst, ty);
    }

    /** The copies for the phis of all successors. */
    method CopyStmt(f: Function, bb: Block) returns (ghost code: seq<Asm>)
      requires HasBlocks(f) && bb in f.blocks && PhisReady(offsetMap.Keys, f) && IntOffsets(offsetMap)
      modifies this`output
      ensures output == old(output) + code && Plain(code)
      ensures Copies(offsetMap, f.ty, code, CopiesFor(f.phis, Targets(f.term[bb]), bb))
    {
      hide Copies;
      var succs := Targets(f.term[bb]);
      code := [];
      ghost var cs: seq<Copy> := [];
      CopiesStart(offsetMap, f.ty);
      var i := 0;
      while i < |succs|
        invariant 0 <= i <= |succs| && output == old(output) + code && Plain(code)
        invariant cs == CopiesFor(f.phis, succs[..i], bb) && Copies(offsetMap, f.ty, code, cs)
      {
        assert succs[..i + 1][..i] == succs[..i];
        if succs[i] in f.phis {
          code := CopyEdge(f, succs[i], bb, code, cs);
          cs := cs + EdgeCopies(f.phis[succs[i]], bb);
        }
        assert cs == CopiesFor(f.phis, succs[..i + 1], bb);
        i := i + 1;
      }
      assert succs[..i] == succs;
    }

    method CopyEdge(f: Function, succ: Block, bb: Block, ghost code: seq<Asm>, ghost cs: seq<Copy>) returns (ghost code': seq<Asm>)
      requires succ in f.phis && PhisReady(offsetMap.Keys, f) && IntOffsets(offsetMap) && Plain(code) && Copies(offsetMap, f.ty, code, cs)
      modifies this`output
      ensures code <= code' && output == old(output) + code'[|code|..] && Plain(code')
      ensures Copies(offsetMap, f.ty, code', cs + EdgeCopies(f.phis[succ], bb))
    {
      hide Copies, Loads, Stores;
      code' := code;
      var phis := f.phis[succ];
      assert cs + [] == cs;
      var k := 0;
      while k < |phis|
        invariant 0 <= k <= |phis| && code <= code' && output == old(output) + code'[|code|..] && Plain(code')
        invariant Copies(offsetMap, f.ty, code', cs + EdgeCopies(phis[..k], bb))
      {
        assert phis[..k + 1][..k] == phis[..k];
        var phi := phis[k];
        assert phi.id in offsetMap && phi.id in f.ty && forall j | 0 <= j < |phi.pairs| :: Placed(offsetMap.Keys, f.ty, phi.pairs[j].0);
        var i := FindPair(phi.pairs, bb);
        if i < |phi.pairs| {
          var lvalue := phi.pairs[i].0;
          ghost var c1 := LoadToGreg(lvalue, A(0), f.ty);
          ghost var c2 := StoreFromGreg(phi.id, A(0), f.ty);
          CopiesNext(offsetMap, f.ty, code', cs + EdgeCopies(phis[..k], bb), c1, c2, phi.id, lvalue);
          code' := code' + c1 + c2;
          assert cs + EdgeCopies(phis[..k], bb) + [(phi.id, lvalue)] == cs + EdgeCopies(phis[..k + 1], bb);
        }
        k := k + 1;
      }
      assert phis[..k] == phis;
    }

    /** The first pair that belongs to bb, if there is one. */
    method FindPair(pairs: seq<(Operand, Block)>, bb: Block) returns (i: nat)
      ensures i <= |pairs|
      ensures IncomingOperand(pairs, bb) == if i < |pairs| then Some(pairs[i].0) else None
    {
      i := 0;
      assert pairs[0..] == pairs;
      while i < |pairs| && pairs[i].1 != bb
        invariant i <= |pairs| && IncomingOperand(pairs, bb) == IncomingOperand(pairs[i..], bb)
      {
        assert pairs[i..][1..] == pairs[i + 1..];
        i := i + 1;
      }
    }

    /** Saves ra and fp, makes the frame, and stores the arguments. */
    method GenPrologue(f: Function) returns (ghost code: seq<Asm>)
      requires frameSize < TWO_31 && |f.args| <= 8 && IntOffsets(offsetMap)
      requires forall id | id in f.args :: id in offsetMap && id in f.ty
      modifies this`output
      ensures output == old(output) + code && Plain(code) && EntersWith(offsetMap, f.ty, frameSize, f.args, code)
    {
      hide Enters, EntersWith, SetsReg, Stores, KeepsArgs;
      if Imm12(0 - frameSize) {
        output := output + SAVE_PAIR + [AddiD(Fp, Sp, 0), AddiD(Sp, Sp, 0 - frameSize)];
        code := SAVE_PAIR + [AddiD(Fp, Sp, 0), AddiD(Sp, Sp, 0 - frameSize)];
        EntersNear(offsetMap, f.ty, frameSize);
      } else {
        ghost var c := LoadLargeInt64(frameSize, T(0));
        output := output + SAVE_PAIR + [Alu(SubD, Sp, Sp, T(0)), Alu(AddD, Fp, Sp, T(0))];
        code := c + SAVE_PAIR + [Alu(SubD, Sp, Sp, T(0)), Alu(AddD, Fp, Sp, T(0))];
        EntersFar(offsetMap, f.ty, frameSize, c);
      }
      EntersNone(offsetMap, f.ty, frameSize, code);
      var n := 0;
      assert f.args[..0] == [];
      while n < |f.args|
        invariant 0 <= n <= |f.args| && output == old(output) + code && Plain(code)
        invariant EntersWith(offsetMap, f.ty, frameSize, f.args[..n], code)
      {
        var arg := f.args[n];
        assert arg in f.args;
        ghost var c := StoreFromGreg(arg, A(n), f.ty);
        EntersNext(offsetMap, f.ty, frameSize, f.args, code, n, c);
        code := code + c;
        n := n + 1;
      }
      assert f.args[..n] == f.args;
    }

    /** Gives the frame back and restores ra and fp; the return itself is the jump that follows. */
    method GenEpilogue(ghost ty: map<Id, Type>) returns (ghost code: seq<Asm>)
      requires frameSize < TWO_31
      modifies this`output
      ensures output == old(output) + code + [Jr(Ra)] && Plain(code) && Leaves(offsetMap, ty, frameSize, code)
    {
      hide Leaves, SetsReg;
      if Imm12(frameSize) {
        output := output + [AddiD(Sp, Sp, frameSize)];
        code := [AddiD(Sp, Sp, frameSize)] + RESTORE_PAIR;
        LeavesNear(offsetMap, ty, frameSize);
      } else {
        ghost var c := LoadLargeInt64(frameSize, T(0));
        output := output + [Alu(AddD, Sp, Sp, T(0))];
        code := c + [Alu(AddD, Sp, Sp, T(0))] + RESTORE_PAIR;
        LeavesFar(offsetMap, ty, frameSize, c);
      }
      output := output + RESTORE_PAIR;
      output := output + [Jr(Ra)];
    }

    method GenRet(f: Function, bb: Block, ghost e: Emitted) returns (ghost e': Emitted)
      requires frameSize < TWO_31 && HasBlocks(f) && bb in f.blocks && f.term[bb].Ret? && IntOffsets(offsetMap)
      requires f.term[bb].val.Some? ==> Placed(offsetMap.Keys, f.ty, f.term[bb].val.value)
      requires BodyOk(f, offsetMap, bb, e.body)
      modifies this`output
      ensures output == old(output) + e'.load + e'.leave + [Jr(Ra), Jr(Ra)]
      ensures e'.body == e.body && EmittedOk(f, offsetMap, frameSize, bb, e')
    {
      hide Leaves, Loads, KeepsFrame, SimulatesAll;
      var v := f.term[bb].val;
      ghost var load;
      if v.Some? {
        load := LoadToGreg(v.value, A(0), f.ty);
      } else {
        output := output + [Alu(AddD, A(0), Zero, Zero)];
        load := [Alu(AddD, A(0), Zero, Zero)];
        KeepsFrameClear();
      }
      ghost var leave := GenEpilogue(f.ty);
      output := output + [Jr(Ra)];
      e' := Emitted(e.body, [], load, leave);
    }

    /** The copies for the phis of the successors, then the branch. */
    method GenBr(f: Function, bb: Block, ghost e: Emitted) returns (ghost e': Emitted)
      requires HasBlocks(f) && bb in f.blocks && !f.term[bb].Ret? && PhisReady(offsetMap.Keys, f) && IntOffsets(offsetMap)
      requires f.term[bb].CondBr? ==> Placed(offsetMap.Keys, f.ty, f.term[bb].cond)
      requires BodyOk(f, offsetMap, bb, e.body)
      modifies this`output
      ensures output == old(output) + BranchText(f.term[bb], e')
      ensures e'.body == e.body && EmittedOk(f, offsetMap, frameSize, bb, e')
    {
      hide Loads, SimulatesAll, Copies, CopiesFor;
      ghost var copies := CopyStmt(f, bb);
      match f.term[bb]
      case Br(target) =>
        output := output + [B(target)];
        e' := Emitted(e.body, copies, [], []);
      case CondBr(cond, trueBB, falseBB) =>
        ghost var load := LoadToGreg(cond, T(0), f.ty);
        output := output + [PICK_BIT];
        output := output + [Bnez(T(1), trueBB)];
        output := output + [B(falseBB)];
        e' := Emitted(e.body, copies, load, []);
    }

    /** One block: its label, its instructions, its terminator. */
    method GenBlock(f: Function, bb: Block) returns (ghost e: Emitted)
      requires frameSize < TWO_31 && FunctionReady(f, offsetMap.Keys) && bb in f.blocks && IntOffsets(offsetMap)
      modifies this`output
      ensures bb in f.term && output == old(output) + TextOf(bb, f.term[bb], e) && EmittedOk(f, offsetMap, frameSize, bb, e)
    {
      hide SimulatesAll, Simulates, EmittedOk, Ready, PhisReady, Placed;
      ghost var body: seq<Asm> := [];
      output := output + [Label(bb)];
      var insts := f.body[bb];
      SimulatesNone(offsetMap, f.ty);
      assert insts[..0] == [];
      var i := 0;
      while i < |insts|
        invariant 0 <= i <= |insts| && output == old(output) + [Label(bb)] + body
        invariant StraightLine(body) && SimulatesAll(offsetMap, f.ty, body, insts[..i])
        invariant AllEncodable(body) <==> AllocasFit(offsetMap, insts[..i])
      {
        ghost var c := GenInst(insts[i], f.ty);
        SimulatesNext(offsetMap, f.ty, body, insts, i, c);
        AllocasNext(offsetMap, insts, i, body, c);
        body := body + c;
        i := i + 1;
      }
      assert insts[..i] == insts;
      e := Emitted(body, [], [], []);
      if f.term[bb].Ret? {
        e := GenRet(f, bb, e);
      } else {
        e := GenBr(f, bb, e);
      }
    }

    /** The whole function. */
    method GenFunction(f: Function, name: int) returns (ghost enter: seq<Asm>, ghost em: map<Block, Emitted>, ghost tail: seq<Asm>)
      requires HasBlocks(f) && SlotsDistinct(Items(f)) && FunctionReady(f, SlotIds(Items(f))) && |f.args| <= 8
      requires PROLOGUE_OFFSET_BASE + Total(Items(f)) + PROLOGUE_ALIGN <= TWO_31
      requires output == [] && offsetMap == map[]
      modifies this
      ensures Allocated(f, offsetMap, frameSize)
      ensures FunctionText(f, offsetMap, frameSize, name, output, enter, em, tail)
      ensures ControlOk(f) && name !in f.blocks && f.blocks != [] && Typed(f, offsetMap) ==> Implements(f, offsetMap, frameSize, output)
    {
      hide Implements, ControlOk, Typed, SlotsDistinct, Allocated, Items, EntersWith, EmittedOk, Ready, PhisReady, Placed, Leaves, Texts, TextOf, SlotIds, Total;
      output := output + [Label(name)];
      Allocate(f);
      AllocatedIds(f, offsetMap, frameSize);
      enter := GenPrologue(f);
      em := map[];
      ghost var off, size := offsetMap, frameSize;
      var i := 0;
      TextsStart(f, em);
      while i < |f.blocks|
        invariant 0 <= i <= |f.blocks| && offsetMap == off && frameSize == size
        invariant BlocksEmitted(f, offsetMap, frameSize, f.blocks[..i], em)
        invariant output == [Label(name)] + enter + Texts(f, f.blocks[..i], em)
      {
        ghost var e := GenBlock(f, f.blocks[i]);
        TextsNext(f, offsetMap, frameSize, i, em, e);
        em := em[f.blocks[i] := e];
        i := i + 1;
      }
      assert f.blocks[..i] == f.blocks;
      ghost var leave := GenEpilogue(f.ty);
      tail := leave + [Jr(Ra)];
      if ControlOk(f) && name !in f.blocks && f.blocks != [] && Typed(f, offsetMap) {
        TextImplements(f, offsetMap, frameSize, name, output, enter, em, tail);
      }
    }
  }
}
