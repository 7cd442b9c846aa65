/** Code fragments: what each instruction sequence that the generator emits does to
    every machine state that agrees with the values of the function. */
module Fragments {
  import opened Common
  import opened LoongArch
  import opened Frame
  import opened LowIr

  /** The called functions keep to the calling convention, wherever they are called from in this frame. */
  ghost predicate CalleesObey(l: Layout) {
    forall callee, regs, mem, seen, trace | Get(regs, Sp) == l.sp && SamePublic(l, mem, seen) :: Obeys(l, callee, regs, mem, seen, trace)
  }

  ghost predicate SamePublic(l: Layout, m: Memory, m': Memory) {
    forall a | !Private(l, a) :: ByteAt(m, a) == ByteAt(m', a)
  }

  /** The callee gives sp and fp back and leaves the frame of its caller alone; otherwise its result and its memory are
      as declared, for the arguments in registers and the memory that programs can address. */
  ghost predicate Obeys(l: Layout, callee: int, regs: Regs, mem: Memory, seen: Memory, trace: Trace) {
    var k := l.callees;
    var args := ArgValues(regs, k.arity(callee));
    var (regs', mem') := k.run(callee, regs, mem, trace);
    && Get(regs', Sp) == Get(regs, Sp) && Get(regs', Fp) == Get(regs, Fp)
    && (!k.isVoid(callee) ==> Represents(I32, Get(regs', A(0)), k.val(callee, args, seen, trace)))
    && SamePublic(l, mem', k.effect(callee, args, seen, trace))
    && forall a | l.sp <= a < l.fp && Private(l, a) :: ByteAt(mem', a) == ByteAt(mem, a)
  }

  /** l is a frame laid out by the offsets and types of the function, and what it calls keeps to the convention. */
  ghost predicate Fits(l: Layout, off: map<Id, int>, ty: map<Id, Type>) {
    LayoutOk(l) && l.off == off && l.ty == ty && CalleesObey(l)
  }

  /** The code sets reg to val, and nothing else. */
  ghost predicate SetsReg(code: seq<Asm>, reg: Reg, val: int) {
    forall st {:trigger Exec(st, code)} :: Exec(st, code) == st.(regs := st.regs[reg := val])
  }

  /** The code brings the value of v into reg, and changes nothing else. */
  ghost predicate Loads(off: map<Id, int>, ty: map<Id, Type>, code: seq<Asm>, v: Operand, reg: Reg) {
    forall l, s, st | Fits(l, off, ty) && Agree(l, s, st) && Known(l, s, v) ::
      LoadedBy(l, s, st, Exec(st, code), v, reg)
  }

  ghost predicate LoadedBy(l: Layout, s: IrState, st: State, st': State, v: Operand, reg: Reg) {
    && st' == st.(regs := st.regs[reg := Get(st'.regs, reg)])
    && Represents(TypeOf(l, v), Get(st'.regs, reg), Value(l, s, v))
  }

  /** The code puts what reg represents into the slot of id; of the registers only t8 may change. */
  ghost predicate Stores(off: map<Id, int>, ty: map<Id, Type>, code: seq<Asm>, id: Id, reg: Reg) {
    forall l, s, st, v: int | Fits(l, off, ty) && Agree(l, s, st) && id in off && id in ty && Represents(ty[id], Get(st.regs, reg), v) ::
      Agree(l, s.(env := s.env[id := v]), Exec(st, code))
  }

  /** The code carries out the instruction on every machine state that agrees with the values. */
  ghost predicate Simulates(off: map<Id, int>, ty: map<Id, Type>, code: seq<Asm>, inst: Inst) {
    forall l, s, st | Fits(l, off, ty) && Agree(l, s, st) && Safe(l, s, inst) ::
      Agree(l, Step(l, s, inst), Exec(st, code))
  }

  /** No branch, no label: the sequence runs from its first instruction through its last. */
  predicate StraightLine(code: seq<Asm>) {
    forall i | i in code :: !i.B? && !i.Bnez? && !i.Jr? && !i.Label?
  }

  predicate Plain(code: seq<Asm>) {
    AllEncodable(code) && StraightLine(code)
  }

  predicate Scratch(reg: Reg) {
    reg.A? || reg.T?
  }

  /** An operand that the generator can load: a constant of 32 bits, a global, or a value with a slot. */
  predicate Placed(ids: set<Id>, ty: map<Id, Type>, v: Operand) {
    && (v.Int? ==> -TWO_31 <= v.c < TWO_31)
    && (v.Var? ==> v.id in ids && v.id in ty)
  }

  /** All that the generator asks of an instruction, when ids have slots. */
  predicate Ready(ids: set<Id>, ty: map<Id, Type>, inst: Inst) {
    && (Defined(inst).Some? ==> Defined(inst).value in ids && Defined(inst).value in ty)
    && match inst
       case Binary(_, _, a, b) => Placed(ids, ty, a) && Placed(ids, ty, b)
       case Compare(_, _, a, b) => Placed(ids, ty, a) && Placed(ids, ty, b)
       case Zext(_, v) => Placed(ids, ty, v)
       case GepElement(_, base, i, size) => Placed(ids, ty, base) && Placed(ids, ty, i) && -TWO_31 <= size < TWO_31
       case GepArray(_, base, i, j, arraySize, elementSize) =>
         && Placed(ids, ty, base) && Placed(ids, ty, i) && Placed(ids, ty, j)
         && -TWO_31 <= arraySize < TWO_31 && -TWO_31 <= elementSize < TWO_31
       case Load(_, ptr) => Placed(ids, ty, ptr)
       case Store(v, ptr) => Placed(ids, ty, v) && Placed(ids, ty, ptr)
       case Alloca(_, _) => true
       case Call(_, _, args) => |args| <= 8 && forall v | v in args :: Placed(ids, ty, v)
  }

  /** What phis name can be loaded and has a slot. */
  ghost predicate PhisReady(ids: set<Id>, f: Function) {
    forall b, k | b in f.phis && 0 <= k < |f.phis[b]| ::
      && f.phis[b][k].id in ids && f.phis[b][k].id in f.ty
      && forall j | 0 <= j < |f.phis[b][k].pairs| :: Placed(ids, f.ty, f.phis[b][k].pairs[j].0)
  }

  predicate IntOffsets(off: map<Id, int>) {
    forall id | id in off :: -TWO_31 <= off[id] < 0
  }

  // ----- loads -----

  lemma UseSets(code: seq<Asm>, reg: Reg, val: int, st: State)
    requires SetsReg(code, reg, val)
    ensures Exec(st, code) == st.(regs := st.regs[reg := val])
  {
  }

  lemma LoadsConst(off: map<Id, int>, ty: map<Id, Type>, code: seq<Asm>, c: int, reg: Reg)
    requires SetsReg(code, reg, c) && Scratch(reg)
    ensures Loads(off, ty, code, Int(c), reg)
  {
    hide Agree, LayoutOk, CalleesObey, Exec, SetsReg;
    forall l, s, st | Fits(l, off, ty) && Agree(l, s, st) && Known(l, s, Int(c))
      ensures LoadedBy(l, s, st, Exec(st, code), Int(c), reg)
    {
      UseSets(code, reg, c, st);
    }
  }

  lemma SetsSmall(c: int, reg: Reg)
    requires Imm12(c) && !reg.Zero?
    ensures SetsReg([AddiW(reg, Zero, c)], reg, c)
  {
    hide Exec;
    forall st ensures Exec(st, [AddiW(reg, Zero, c)]) == st.(regs := st.regs[reg := c]) {
      ExecOne(st, AddiW(reg, Zero, c));
    }
  }

  lemma RunsLarge64(code: seq<Asm>, reg: Reg, val: int, st: State)
    requires -TWO_63 <= val < TWO_63 && !reg.Zero? && SetsReg(code, reg, S32(val))
    ensures Exec(st, code + [Lu32iD(reg, Middle20(val)), Lu52iD(reg, reg, Top12(val))]) == st.(regs := st.regs[reg := val])
  {
    hide Exec, Exec1, S32, Middle20, Top12, SetsReg;
    ExecAppend(st, code, [Lu32iD(reg, Middle20(val)), Lu52iD(reg, reg, Top12(val))]);
    UseSets(code, reg, S32(val), st);
    LargeInt64Loads(st, reg, val);
  }

  lemma SetsLarge64(code: seq<Asm>, reg: Reg, val: int)
    requires -TWO_63 <= val < TWO_63 && !reg.Zero? && SetsReg(code, reg, S32(val))
    ensures SetsReg(code + [Lu32iD(reg, Middle20(val)), Lu52iD(reg, reg, Top12(val))], reg, val)
  {
    hide Exec, Exec1, S32, Middle20, Top12;
    var whole := code + [Lu32iD(reg, Middle20(val)), Lu52iD(reg, reg, Top12(val))];
    forall st ensures Exec(st, whole) == st.(regs := st.regs[reg := val]) {
      RunsLarge64(code, reg, val, st);
    }
  }

  lemma LoadsGlobal(off: map<Id, int>, ty: map<Id, Type>, g: int, reg: Reg)
    requires Scratch(reg)
    ensures Loads(off, ty, [LaLocal(reg, g)], Global(g), reg)
  {
    hide Exec;
    forall l, s, st | Fits(l, off, ty) && Agree(l, s, st) && Known(l, s, Global(g))
      ensures LoadedBy(l, s, st, Exec(st, [LaLocal(reg, g)]), Global(g), reg)
    {
      ExecOne(st, LaLocal(reg, g));
    }
  }

  lemma LoadsNear(off: map<Id, int>, ty: map<Id, Type>, id: Id, reg: Reg)
    requires id in off && id in ty && Scratch(reg)
    ensures Loads(off, ty, [Ld(WidthOf(ty[id]), reg, Fp, off[id])], Var(id), reg)
  {
    hide Exec, LayoutOk, CalleesObey, LoadResult;
    var i := Ld(WidthOf(ty[id]), reg, Fp, off[id]);
    forall l, s, st | Fits(l, off, ty) && Agree(l, s, st) && Known(l, s, Var(id))
      ensures LoadedBy(l, s, st, Exec(st, [i]), Var(id), reg)
    {
      ExecOne(st, i);
      LoadSlot(l, s, st, id);
    }
  }

  /** The address of a slot, computed in a register from its offset. */
  lemma FarAddress(l: Layout, s: IrState, st: State, code: seq<Asm>, reg: Reg, id: Id)
    requires LayoutOk(l) && Agree(l, s, st) && id in l.off && SetsReg(code, reg, l.off[id]) && Scratch(reg)
    ensures Exec(st, code + [Alu(AddD, reg, Fp, reg)]) == st.(regs := st.regs[reg := l.fp + l.off[id]])
  {
    hide Exec, LayoutOk, CalleesObey, SetsReg, Agree, S64;
    var i := Alu(AddD, reg, Fp, reg);
    AgreeFrame(l, s, st);
    SlotAddress(l, id);
    UseSets(code, reg, l.off[id], st);
    ExecAppend(st, code, [i]);
    ExecOne(st.(regs := st.regs[reg := l.off[id]]), i);
    assert st.regs[reg := l.off[id]][reg := l.fp + l.off[id]] == st.regs[reg := l.fp + l.off[id]];
  }

  lemma LoadsFar(off: map<Id, int>, ty: map<Id, Type>, id: Id, reg: Reg, code: seq<Asm>)
    requires id in off && id in ty && Scratch(reg) && SetsReg(code, reg, off[id])
    ensures Loads(off, ty, code + [Alu(AddD, reg, Fp, reg)] + [Ld(WidthOf(ty[id]), reg, reg, 0)], Var(id), reg)
  {
    hide Exec, LayoutOk, CalleesObey, LoadResult, SetsReg, Represents;
    var i := Ld(WidthOf(ty[id]), reg, reg, 0);
    var c := code + [Alu(AddD, reg, Fp, reg)];
    forall l, s, st | Fits(l, off, ty) && Agree(l, s, st) && Known(l, s, Var(id))
      ensures LoadedBy(l, s, st, Exec(st, c + [i]), Var(id), reg)
    {
      LoadSlot(l, s, st, id);
      FarAddress(l, s, st, code, reg, id);
      ExecAppend(st, c, [i]);
      var st1 := st.(regs := st.regs[reg := l.fp + l.off[id]]);
      ExecOne(st1, i);
      var w := LoadResult(st.mem, WidthOf(ty[id]), l.fp + l.off[id]);
      assert st.regs[reg := l.fp + l.off[id]][reg := w] == st.regs[reg := w];
    }
  }

  // ----- stores -----

  lemma StoresNear(off: map<Id, int>, ty: map<Id, Type>, id: Id, reg: Reg)
    requires id in off && id in ty
    ensures Stores(off, ty, [St(WidthOf(ty[id]), reg, Fp, off[id])], id, reg)
  {
    hide Exec, LayoutOk, CalleesObey, StoreBytes, Represents, LoadValue, ByteAt, Private;
    var i := St(WidthOf(ty[id]), reg, Fp, off[id]);
    forall l, s, st, v: int | Fits(l, off, ty) && Agree(l, s, st) && Represents(ty[id], Get(st.regs, reg), v)
      ensures Agree(l, s.(env := s.env[id := v]), Exec(st, [i]))
    {
      ExecOne(st, i);
      SlotAddress(l, id);
      StoreSlot(l, s, st, id, Get(st.regs, reg), v);
    }
  }

  lemma StoresFar(off: map<Id, int>, ty: map<Id, Type>, id: Id, reg: Reg, code: seq<Asm>)
    requires id in off && id in ty && Scratch(reg) && reg != T(8) && SetsReg(code, T(8), off[id])
    ensures Stores(off, ty, code + [Alu(AddD, T(8), Fp, T(8))] + [St(WidthOf(ty[id]), reg, T(8), 0)], id, reg)
  {
    hide Exec, LayoutOk, CalleesObey, StoreBytes, SetsReg, Represents, LoadValue, ByteAt, Private;
    var i := St(WidthOf(ty[id]), reg, T(8), 0);
    var c := code + [Alu(AddD, T(8), Fp, T(8))];
    forall l, s, st, v: int | Fits(l, off, ty) && Agree(l, s, st) && Represents(ty[id], Get(st.regs, reg), v)
      ensures Agree(l, s.(env := s.env[id := v]), Exec(st, c + [i]))
    {
      FarAddress(l, s, st, code, T(8), id);
      ExecAppend(st, c, [i]);
      var st1 := st.(regs := st.regs[T(8) := l.fp + l.off[id]]);
      ExecOne(st1, i);
      SlotAddress(l, id);
      AgreeRegs(l, s, st, st1);
      StoreSlot(l, s, st1, id, Get(st.regs, reg), v);
    }
  }

  // ----- putting fragments together -----

  lemma UseLoads(off: map<Id, int>, ty: map<Id, Type>, code: seq<Asm>, v: Operand, reg: Reg, l: Layout, s: IrState, st: State)
    requires Loads(off, ty, code, v, reg) && Scratch(reg)
    requires Fits(l, off, ty) && Agree(l, s, st) && Known(l, s, v)
    ensures LoadedBy(l, s, st, Exec(st, code), v, reg) && Agree(l, s, Exec(st, code))
  {
    hide Exec, LayoutOk, CalleesObey, Represents, LoadValue, ByteAt, Private;
    assert LoadedBy(l, s, st, Exec(st, code), v, reg);
    AgreeRegs(l, s, st, Exec(st, code));
  }

  lemma UseStores(off: map<Id, int>, ty: map<Id, Type>, pre: seq<Asm>, code: seq<Asm>, id: Id, reg: Reg, l: Layout, s: IrState, st: State, v: int)
    requires Stores(off, ty, code, id, reg) && id in off && id in ty
    requires Fits(l, off, ty) && Agree(l, s, Exec(st, pre)) && Represents(ty[id], Get(Exec(st, pre).regs, reg), v)
    ensures Agree(l, s.(env := s.env[id := v]), Exec(st, pre + code))
  {
    hide Exec, LayoutOk, CalleesObey, Represents, LoadValue, ByteAt, Private;
    ExecAppend(st, pre, code);
  }

  lemma AgreeTemporaries(l: Layout, s: IrState, st: State, st': State)
    requires Agree(l, s, st) && OnlyTemporaries(st, st')
    ensures Agree(l, s, st')
  {
    hide LoadValue, ByteAt, Private;
    AgreeRegs(l, s, st, st');
  }

  /** Two operands in two registers. */
  lemma UseTwoLoads(off: map<Id, int>, ty: map<Id, Type>, c1: seq<Asm>, a: Operand, r1: Reg, c2: seq<Asm>, b: Operand, r2: Reg,
                    l: Layout, s: IrState, st: State)
    requires Loads(off, ty, c1, a, r1) && Loads(off, ty, c2, b, r2) && Scratch(r1) && Scratch(r2) && r1 != r2
    requires Fits(l, off, ty) && Agree(l, s, st) && Known(l, s, a) && Known(l, s, b)
    ensures var st' := Exec(st, c1 + c2);
            && Agree(l, s, st')
            && Represents(TypeOf(l, a), Get(st'.regs, r1), Value(l, s, a))
            && Represents(TypeOf(l, b), Get(st'.regs, r2), Value(l, s, b))
  {
    hide Exec, LayoutOk, CalleesObey, Represents, Agree, Loads;
    ExecAppend(st, c1, c2);
    UseLoads(off, ty, c1, a, r1, l, s, st);
    UseLoads(off, ty, c2, b, r2, l, s, Exec(st, c1));
  }

  lemma SimulatesBinary(off: map<Id, int>, ty: map<Id, Type>, c1: seq<Asm>, c2: seq<Asm>, c3: seq<Asm>, id: Id, op: BinaryOp, a: Operand, b: Operand)
    requires Loads(off, ty, c1, a, T(0)) && Loads(off, ty, c2, b, T(1)) && Stores(off, ty, c3, id, T(2))
    ensures Simulates(off, ty, c1 + c2 + [BinaryCode(op)] + c3, Binary(id, op, a, b))
  {
    hide Exec, LayoutOk, CalleesObey, Agree, Loads, Stores, Known, TypeOf, Value, BinaryCode, BinaryValue, OnlyTemporaries;
    forall l, s, st | Fits(l, off, ty) && Agree(l, s, st) && Safe(l, s, Binary(id, op, a, b))
      ensures Agree(l, Step(l, s, Binary(id, op, a, b)), Exec(st, c1 + c2 + [BinaryCode(op)] + c3))
    {
      var s0 := Completed(l, s, st);
      CompletedAgrees(l, s, st);
      CompletedValue(l, s, st, a, I32);
      CompletedValue(l, s, st, b, I32);
      UseTwoLoads(off, ty, c1, a, T(0), c2, b, T(1), l, s0, st);
      ExecAppend(st, c1 + c2, [BinaryCode(op)]);
      var st1 := Exec(st, c1 + c2);
      ExecOne(st1, BinaryCode(op));
      BinaryRuns(st1, op, Value(l, s0, a), Value(l, s0, b));
      AgreeTemporaries(l, s0, st1, Exec1(st1, BinaryCode(op)));
      var y := BinaryValue(op, Value(l, s0, a), Value(l, s0, b));
      UseStores(off, ty, c1 + c2 + [BinaryCode(op)], c3, id, T(2), l, s0, st, y);
      AssignAgrees(l, s, st, id, IsSet(s, a) && IsSet(s, b), BinaryValue(op, Value(l, s, a), Value(l, s, b)), y,
                   Exec(st, c1 + c2 + [BinaryCode(op)] + c3));
    }
  }

  function BinaryCode(op: BinaryOp): Asm {
    match op
    case Add => Alu(AddW, T(2), T(0), T(1))
    case Sub => Alu(SubW, T(2), T(0), T(1))
    case Mul => Alu(MulW, T(2), T(0), T(1))
    case Sdiv => Alu(DivW, T(2), T(0), T(1))
  }

  lemma BinaryRuns(st: State, op: BinaryOp, a: int, b: int)
    requires Get(st.regs, T(0)) == a && Get(st.regs, T(1)) == b && -TWO_31 <= a < TWO_31 && -TWO_31 <= b < TWO_31
    ensures OnlyTemporaries(st, Exec1(st, BinaryCode(op))) && Represents(I32, Get(Exec1(st, BinaryCode(op)).regs, T(2)), BinaryValue(op, a, b))
  {
    hide Exec, DivTrunc, OrBits;
    TemporariesOnly(st, [BinaryCode(op)]);
    ExecOne(st, BinaryCode(op));
  }

  lemma SimulatesCompare(off: map<Id, int>, ty: map<Id, Type>, c1: seq<Asm>, c2: seq<Asm>, c3: seq<Asm>, id: Id, cmp: Comparison, a: Operand, b: Operand)
    requires Loads(off, ty, c1, a, T(0)) && Loads(off, ty, c2, b, T(1)) && Stores(off, ty, c3, id, T(0))
    ensures Simulates(off, ty, c1 + c2 + CompareCode(cmp) + c3, Compare(id, cmp, a, b))
  {
    hide Exec, LayoutOk, CalleesObey, Agree, Loads, Stores, Known, TypeOf, Value, CompareCode, OnlyTemporaries;
    forall l, s, st | Fits(l, off, ty) && Agree(l, s, st) && Safe(l, s, Compare(id, cmp, a, b))
      ensures Agree(l, Step(l, s, Compare(id, cmp, a, b)), Exec(st, c1 + c2 + CompareCode(cmp) + c3))
    {
      var s0 := Completed(l, s, st);
      CompletedAgrees(l, s, st);
      CompletedValue(l, s, st, a, I32);
      CompletedValue(l, s, st, b, I32);
      UseTwoLoads(off, ty, c1, a, T(0), c2, b, T(1), l, s0, st);
      ExecAppend(st, c1 + c2, CompareCode(cmp));
      var st1 := Exec(st, c1 + c2);
      CompareExact(st1, cmp, Value(l, s0, a), Value(l, s0, b));
      AgreeTemporaries(l, s0, st1, Exec(st1, CompareCode(cmp)));
      var y := Get(Exec(st1, CompareCode(cmp)).regs, T(0)) % 2;
      UseStores(off, ty, c1 + c2 + CompareCode(cmp), c3, id, T(0), l, s0, st, y);
      AssignAgrees(l, s, st, id, IsSet(s, a) && IsSet(s, b) && CompareFits(cmp, Value(l, s, a), Value(l, s, b)),
                   Bit(Holds(cmp, Value(l, s, a), Value(l, s, b))), y, Exec(st, c1 + c2 + CompareCode(cmp) + c3));
    }
  }

  lemma SimulatesZext(off: map<Id, int>, ty: map<Id, Type>, c1: seq<Asm>, c2: seq<Asm>, id: Id, v: Operand)
    requires Loads(off, ty, c1, v, T(0)) && Stores(off, ty, c2, id, T(1))
    ensures Simulates(off, ty, c1 + [BstrpickW(T(1), T(0), 0)] + c2, Zext(id, v))
  {
    hide Exec, LayoutOk, CalleesObey, Agree, Loads, Stores, Known, TypeOf, Value;
    var i := BstrpickW(T(1), T(0), 0);
    forall l, s, st | Fits(l, off, ty) && Agree(l, s, st) && Safe(l, s, Zext(id, v))
      ensures Agree(l, Step(l, s, Zext(id, v)), Exec(st, c1 + [i] + c2))
    {
      var s0 := Completed(l, s, st);
      CompletedAgrees(l, s, st);
      CompletedValue(l, s, st, v, I1);
      UseLoads(off, ty, c1, v, T(0), l, s0, st);
      var st1 := Exec(st, c1);
      ExecAppend(st, c1, [i]);
      ExecOne(st1, i);
      TemporariesOnly(st1, [i]);
      AgreeTemporaries(l, s0, st1, Exec1(st1, i));
      UseStores(off, ty, c1 + [i], c2, id, T(1), l, s0, st, Value(l, s0, v));
      AssignAgrees(l, s, st, id, IsSet(s, v), Value(l, s, v), Value(l, s0, v), Exec(st, c1 + [i] + c2));
    }
  }

  lemma SimulatesElement(off: map<Id, int>, ty: map<Id, Type>, c1: seq<Asm>, c2: seq<Asm>, c3: seq<Asm>, c4: seq<Asm>,
                         id: Id, base: Operand, index: Operand, size: int)
    requires Loads(off, ty, c1, base, T(0)) && Loads(off, ty, c2, index, T(1)) && SetsReg(c3, T(3), size) && Stores(off, ty, c4, id, T(0))
    ensures Simulates(off, ty, c1 + c2 + c3 + ELEMENT_CODE + c4, GepElement(id, base, index, size))
  {
    hide Exec, LayoutOk, CalleesObey, Agree, Loads, Stores, Known, TypeOf, Value, SetsReg, ELEMENT_CODE, S32, S64;
    forall l, s, st | Fits(l, off, ty) && Agree(l, s, st) && Safe(l, s, GepElement(id, base, index, size))
      ensures Agree(l, Step(l, s, GepElement(id, base, index, size)), Exec(st, c1 + c2 + c3 + ELEMENT_CODE + c4))
    {
      var s0 := Completed(l, s, st);
      CompletedAgrees(l, s, st);
      CompletedValue(l, s, st, base, Ptr);
      CompletedValue(l, s, st, index, I32);
      var y := ElementValue(off, ty, c1, c2, c3, base, index, size, l, s0, st);
      UseStores(off, ty, c1 + c2 + c3 + ELEMENT_CODE, c4, id, T(0), l, s0, st, y);
      OffsetExact(Value(l, s, base), Value(l, s0, index), size);
      AssignAgrees(l, s, st, id, IsSet(s, base) && IsSet(s, index) && OffsetFits(Value(l, s, index), size),
                   S64(Value(l, s, base) + Value(l, s, index) * size), y, Exec(st, c1 + c2 + c3 + ELEMENT_CODE + c4));
    }
  }

  /** The address that the code computes, in t0. */
  lemma ElementValue(off: map<Id, int>, ty: map<Id, Type>, c1: seq<Asm>, c2: seq<Asm>, c3: seq<Asm>, base: Operand, index: Operand, size: int,
                     l: Layout, s: IrState, st: State) returns (y: int)
    requires Loads(off, ty, c1, base, T(0)) && Loads(off, ty, c2, index, T(1)) && SetsReg(c3, T(3), size)
    requires Fits(l, off, ty) && Agree(l, s, st) && TypedAs(l, s, base, Ptr) && TypedAs(l, s, index, I32)
    ensures y == S64(Value(l, s, base) + OffsetOf(Value(l, s, index), size))
    ensures var st' := Exec(st, c1 + c2 + c3 + ELEMENT_CODE);
            Agree(l, s, st') && Get(st'.regs, T(0)) == y && -TWO_31 <= Value(l, s, index) < TWO_31
  {
    hide Exec, LayoutOk, CalleesObey, Agree, Loads, Known, TypeOf, Value, SetsReg, ELEMENT_CODE, S32, S64, OffsetOf;
    UseTwoLoads(off, ty, c1, base, T(0), c2, index, T(1), l, s, st);
    var st1 := Exec(st, c1 + c2);
    ExecAppend(st, c1 + c2, c3);
    UseSets(c3, T(3), size, st1);
    var st2 := Exec(st1, c3);
    ExecAppend(st, c1 + c2 + c3, ELEMENT_CODE);
    ElementAddress(st2, Value(l, s, index), size);
    AgreeTemporaries(l, s, st1, Exec(st2, ELEMENT_CODE));
    y := Get(Exec(st2, ELEMENT_CODE).regs, T(0));
  }

  lemma SimulatesArray(off: map<Id, int>, ty: map<Id, Type>, c1: seq<Asm>, c2: seq<Asm>, c3: seq<Asm>, c4: seq<Asm>, c5: seq<Asm>, c6: seq<Asm>,
                       id: Id, base: Operand, i: Operand, j: Operand, arraySize: int, elementSize: int)
    requires Loads(off, ty, c1, base, T(0)) && Loads(off, ty, c2, i, T(1)) && Loads(off, ty, c3, j, T(2))
    requires SetsReg(c4, T(3), arraySize) && SetsReg(c5, T(4), elementSize) && Stores(off, ty, c6, id, T(0))
    ensures Simulates(off, ty, c1 + c2 + c3 + c4 + c5 + (ARRAY_MULS + ARRAY_PICKS + ARRAY_ADDS) + c6,
                      GepArray(id, base, i, j, arraySize, elementSize))
  {
    hide Exec, LayoutOk, CalleesObey, Agree, Loads, Stores, Known, TypeOf, Value, SetsReg, ARRAY_MULS, ARRAY_PICKS, ARRAY_ADDS, S32, S64;
    var mid := ARRAY_MULS + ARRAY_PICKS + ARRAY_ADDS;
    var inst := GepArray(id, base, i, j, arraySize, elementSize);
    forall l, s, st | Fits(l, off, ty) && Agree(l, s, st) && Safe(l, s, inst)
      ensures Agree(l, Step(l, s, inst), Exec(st, c1 + c2 + c3 + c4 + c5 + mid + c6))
    {
      var s0 := Completed(l, s, st);
      CompletedAgrees(l, s, st);
      CompletedValue(l, s, st, base, Ptr);
      CompletedValue(l, s, st, i, I32);
      CompletedValue(l, s, st, j, I32);
      var y := ArrayValue(off, ty, c1, c2, c3, c4, c5, base, i, j, arraySize, elementSize, l, s0, st);
      UseStores(off, ty, c1 + c2 + c3 + c4 + c5 + mid, c6, id, T(0), l, s0, st, y);
      OffsetExact(Value(l, s, base), Value(l, s0, i), arraySize);
      OffsetExact(Value(l, s, base), Value(l, s0, j), elementSize);
      AssignAgrees(l, s, st, id, IsSet(s, base) && IsSet(s, i) && IsSet(s, j) && OffsetFits(Value(l, s, i), arraySize) && OffsetFits(Value(l, s, j), elementSize),
                   S64(Value(l, s, base) + Value(l, s, i) * arraySize + Value(l, s, j) * elementSize), y,
                   Exec(st, c1 + c2 + c3 + c4 + c5 + mid + c6));
    }
  }

  /** The address that the code computes, in t0. */
  lemma ArrayValue(off: map<Id, int>, ty: map<Id, Type>, c1: seq<Asm>, c2: seq<Asm>, c3: seq<Asm>, c4: seq<Asm>, c5: seq<Asm>,
                   base: Operand, i: Operand, j: Operand, arraySize: int, elementSize: int, l: Layout, s: IrState, st: State) returns (y: int)
    requires Loads(off, ty, c1, base, T(0)) && Loads(off, ty, c2, i, T(1)) && Loads(off, ty, c3, j, T(2))
    requires SetsReg(c4, T(3), arraySize) && SetsReg(c5, T(4), elementSize)
    requires Fits(l, off, ty) && Agree(l, s, st) && TypedAs(l, s, base, Ptr) && TypedAs(l, s, i, I32) && TypedAs(l, s, j, I32)
    ensures y == S64(Value(l, s, base) + OffsetOf(Value(l, s, i), arraySize) + OffsetOf(Value(l, s, j), elementSize))
    ensures var st' := Exec(st, c1 + c2 + c3 + c4 + c5 + (ARRAY_MULS + ARRAY_PICKS + ARRAY_ADDS));
            && Agree(l, s, st') && Get(st'.regs, T(0)) == y
            && -TWO_31 <= Value(l, s, i) < TWO_31 && -TWO_31 <= Value(l, s, j) < TWO_31
  {
    hide Exec, LayoutOk, CalleesObey, Agree, Loads, Known, TypeOf, Value, SetsReg, ARRAY_MULS, ARRAY_PICKS, ARRAY_ADDS, S32, S64;
    var mid := ARRAY_MULS + ARRAY_PICKS + ARRAY_ADDS;
    UseTwoLoads(off, ty, c1, base, T(0), c2, i, T(1), l, s, st);
    var st1 := Exec(st, c1 + c2);
    ExecAppend(st, c1 + c2, c3);
    UseLoads(off, ty, c3, j, T(2), l, s, st1);
    var st2 := Exec(st1, c3);
    ExecAppend(st, c1 + c2 + c3, c4);
    UseSets(c4, T(3), arraySize, st2);
    ExecAppend(st, c1 + c2 + c3 + c4, c5);
    UseSets(c5, T(4), elementSize, Exec(st2, c4));
    var st3 := Exec(Exec(st2, c4), c5);
    ExecAppend(st, c1 + c2 + c3 + c4 + c5, mid);
    ArrayAddress(st3, Value(l, s, i), Value(l, s, j), arraySize, elementSize);
    AgreeTemporaries(l, s, st2, Exec(st3, mid));
    y := Get(Exec(st3, mid).regs, T(0));
  }

  lemma SimulatesLoad(off: map<Id, int>, ty: map<Id, Type>, c1: seq<Asm>, c2: seq<Asm>, id: Id, ptr: Operand)
    requires Loads(off, ty, c1, ptr, T(0)) && Stores(off, ty, c2, id, T(1)) && id in ty
    ensures Simulates(off, ty, c1 + [Ld(WidthOf(ty[id]), T(1), T(0), 0)] + c2, Load(id, ptr))
  {
    hide Exec, LayoutOk, CalleesObey, Agree, Loads, Stores, Known, Value, LoadValue, LoadResult, Private;
    var i := Ld(WidthOf(ty[id]), T(1), T(0), 0);
    forall l, s, st | Fits(l, off, ty) && Agree(l, s, st) && Safe(l, s, Load(id, ptr))
      ensures Agree(l, Step(l, s, Load(id, ptr)), Exec(st, c1 + [i] + c2))
    {
      UseLoads(off, ty, c1, ptr, T(0), l, s, st);
      var st1 := Exec(st, c1);
      ExecAppend(st, c1, [i]);
      ExecOne(st1, i);
      LoadPublic(l, s, st1, ty[id], Value(l, s, ptr));
      LoadRepresents(st1.mem, ty[id], Value(l, s, ptr));
      AgreeTemporaries(l, s, st1, Exec1(st1, i));
      UseStores(off, ty, c1 + [i], c2, id, T(1), l, s, st, LoadValue(s.mem, ty[id], Value(l, s, ptr)));
    }
  }

  lemma SimulatesStore(off: map<Id, int>, ty: map<Id, Type>, c1: seq<Asm>, c2: seq<Asm>, v: Operand, ptr: Operand, w: Width)
    requires Loads(off, ty, c1, ptr, T(0)) && Loads(off, ty, c2, v, T(1)) && w == StoreWidth(ty, v)
    ensures Simulates(off, ty, c1 + c2 + [St(w, T(1), T(0), 0)], Store(v, ptr))
  {
    hide Exec, LayoutOk, CalleesObey, Agree, Loads, Stores, Known, Value, LoadBytes, StoreBytes, Private;
    var i := St(w, T(1), T(0), 0);
    forall l, s, st | Fits(l, off, ty) && Agree(l, s, st) && Safe(l, s, Store(v, ptr))
      ensures Agree(l, Step(l, s, Store(v, ptr)), Exec(st, c1 + c2 + [i]))
    {
      UseTwoLoads(off, ty, c1, ptr, T(0), c2, v, T(1), l, s, st);
      var st1 := Exec(st, c1 + c2);
      ExecAppend(st, c1 + c2, [i]);
      ExecOne(st1, i);
      StorePublic(l, s, st1, Size(TypeOf(l, v)), Value(l, s, ptr), Value(l, s, v));
    }
  }

  function StoreWidth(ty: map<Id, Type>, v: Operand): Width {
    match v
    case Int(_) => Word
    case Global(_) => Double
    case Var(id) => if id in ty then WidthOf(ty[id]) else Word
  }

  /** The slot of an alloca lies below the saved pair, so the body of one for 600 ints is out of reach of twelve bits. */
  lemma AllocaTooFar(offset: int)
    requires offset + Size(Ptr) <= -16
    ensures !Imm12(offset - 600 * Size(I32))
  {
  }

  lemma SimulatesAlloca(off: map<Id, int>, ty: map<Id, Type>, c1: seq<Asm>, id: Id, size: nat)
    requires Stores(off, ty, c1, id, T(1)) && id in off
    ensures Simulates(off, ty, [AddiD(T(1), Fp, off[id] - size)] + c1, Alloca(id, size))
  {
    hide Exec, Loads, Stores, Known, Value, LoadValue, ByteAt, Private;
    var i := AddiD(T(1), Fp, off[id] - size);
    forall l, s, st | Fits(l, off, ty) && Agree(l, s, st) && Safe(l, s, Alloca(id, size))
      ensures Agree(l, Step(l, s, Alloca(id, size)), Exec(st, [i] + c1))
    {
      ExecOne(st, i);
      AgreeTemporaries(l, s, st, Exec1(st, i));
      UseStores(off, ty, [i], c1, id, T(1), l, s, st, l.fp + off[id] - size);
    }
  }

  // ----- calls -----

  /** The code brings the arguments into their registers. */
  ghost predicate LoadsArgs(off: map<Id, int>, ty: map<Id, Type>, code: seq<Asm>, vs: seq<Operand>) {
    forall l, s, st | Fits(l, off, ty) && Agree(l, s, st) && ArgsKnown(l, s, vs) ::
      ArgsLoaded(l, s, Exec(st, code), vs)
  }

  ghost predicate ArgsLoaded(l: Layout, s: IrState, st: State, vs: seq<Operand>) {
    Agree(l, s, st) && forall i | 0 <= i < |vs| :: Get(st.regs, A(i)) == Value(l, s, vs[i])
  }

  lemma NoArgs(off: map<Id, int>, ty: map<Id, Type>)
    ensures LoadsArgs(off, ty, [], [])
  {
    hide Agree, LayoutOk, CalleesObey;
  }

  lemma ArgsNext(off: map<Id, int>, ty: map<Id, Type>, code: seq<Asm>, vs: seq<Operand>, c: seq<Asm>, v: Operand)
    requires LoadsArgs(off, ty, code, vs) && Loads(off, ty, c, v, A(|vs|))
    ensures LoadsArgs(off, ty, code + c, vs + [v])
  {
    hide Fits, Agree, Exec, Loads, ArgsKnown, ArgsLoaded;
    forall l, s, st | Fits(l, off, ty) && Agree(l, s, st) && ArgsKnown(l, s, vs + [v])
      ensures ArgsLoaded(l, s, Exec(st, code + c), vs + [v])
    {
      ArgsKnownParts(l, s, vs, v);
      assert ArgsLoaded(l, s, Exec(st, code), vs);
      OneMore(off, ty, code, vs, c, v, l, s, st);
    }
  }

  lemma ArgsKnownParts(l: Layout, s: IrState, vs: seq<Operand>, v: Operand)
    requires ArgsKnown(l, s, vs + [v])
    ensures ArgsKnown(l, s, vs) && Known(l, s, v) && TypeOf(l, v) != I1
  {
    hide Known, TypeOf;
    assert forall i | 0 <= i < |vs| :: (vs + [v])[i] == vs[i];
    assert (vs + [v])[|vs|] == v;
  }

  lemma OneMore(off: map<Id, int>, ty: map<Id, Type>, code: seq<Asm>, vs: seq<Operand>, c: seq<Asm>, v: Operand, l: Layout, s: IrState, st: State)
    requires Loads(off, ty, c, v, A(|vs|)) && Fits(l, off, ty) && ArgsLoaded(l, s, Exec(st, code), vs) && Known(l, s, v) && TypeOf(l, v) != I1
    ensures ArgsLoaded(l, s, Exec(st, code + c), vs + [v])
  {
    hide Fits, Agree, Exec, Loads, Known, TypeOf, Value;
    ExecAppend(st, code, c);
    UseLoads(off, ty, c, v, A(|vs|), l, s, Exec(st, code));
  }

  /** Through the call: the slots keep their values, memory and result are as declared. */
  lemma CallAgrees(l: Layout, s: IrState, st: State, callee: int, vs: seq<Operand>)
    requires LayoutOk(l) && CalleesObey(l) && ArgsLoaded(l, s, st, vs) && |vs| == l.callees.arity(callee)
    ensures Agree(l, Invoked(l, s, callee, Values(l, s, vs)), AfterCall(st, callee))
    ensures !l.callees.isVoid(callee) ==>
              Represents(I32, Get(AfterCall(st, callee).regs, A(0)), l.callees.val(callee, Values(l, s, vs), s.mem, s.trace))
  {
    hide LoadValue, ByteAt, Represents;
    var args := Values(l, s, vs);
    assert ArgValues(st.regs, |vs|) == args;
    assert SamePublic(l, st.mem, s.mem);
    assert Obeys(l, callee, st.regs, st.mem, s.mem, st.trace);
    var st' := AfterCall(st, callee);
    forall i | i in s.env ensures LoadValue(st'.mem, l.ty[i], l.fp + l.off[i]) == s.env[i] {
      LoadValueSame(st.mem, st'.mem, l.ty[i], l.fp + l.off[i]);
    }
  }

  lemma SimulatesCall(off: map<Id, int>, ty: map<Id, Type>, c1: seq<Asm>, c2: seq<Asm>, result: Option<Id>, callee: int, args: seq<Operand>)
    requires LoadsArgs(off, ty, c1, args) && if result.Some? then Stores(off, ty, c2, result.value, A(0)) else c2 == []
    ensures Simulates(off, ty, c1 + [Bl(callee)] + c2, Call(result, callee, args))
  {
    hide Exec, LayoutOk, CalleesObey, Agree, Stores, ArgsKnown, Values, Represents;
    var inst, code := Call(result, callee, args), c1 + [Bl(callee)];
    forall l, s, st | Fits(l, off, ty) && Agree(l, s, st) && Safe(l, s, inst)
      ensures Agree(l, Step(l, s, inst), Exec(st, code + c2))
    {
      assert ArgsLoaded(l, s, Exec(st, c1), args);
      ExecAppend(st, c1, [Bl(callee)]);
      ExecOne(Exec(st, c1), Bl(callee));
      CallAgrees(l, s, Exec(st, c1), callee, args);
      var vals := Values(l, s, args);
      if result.Some? {
        UseStores(off, ty, code, c2, result.value, A(0), l, Invoked(l, s, callee, vals), st, l.callees.val(callee, vals, s.mem, s.trace));
      } else {
        assert code + c2 == code;
      }
    }
  }

  lemma SixParts(a: seq<Asm>, b: seq<Asm>, c: seq<Asm>, d: seq<Asm>, e: seq<Asm>, f: seq<Asm>, g: seq<Asm>)
    ensures a + b + c + d + e + f + g == a + (b + c + d + e + f + g)
  {
    assert a + b + c == a + (b + c);
    assert a + (b + c) + d == a + (b + c + d);
    assert a + (b + c + d) + e == a + (b + c + d + e);
  }

  lemma AddressPlain()
    ensures Plain(ELEMENT_CODE) && Plain(ARRAY_MULS + ARRAY_PICKS + ARRAY_ADDS)
  {
  }
}
