/** Typed instructions as the code generator sees them, what each computes, and the
    register-level arithmetic that the generated code relies on. */
module LowIr {
  import opened Common
  import opened Cfg
  import opened LoongArch
  import opened Frame

  datatype BinaryOp = Add | Sub | Mul | Sdiv

  datatype Inst =
    | Binary(id: Id, op: BinaryOp, lhs: Operand, rhs: Operand)
    | Compare(id: Id, cmp: Comparison, lhs: Operand, rhs: Operand)
    | Zext(id: Id, src: Operand)
    | GepElement(id: Id, base: Operand, index: Operand, size: int)
    | GepArray(id: Id, base: Operand, first: Operand, second: Operand, arraySize: int, elementSize: int)
    | Load(id: Id, ptr: Operand)
    | Store(val: Operand, ptr: Operand)
    | Alloca(id: Id, bodySize: nat)
    | Call(result: Option<Id>, callee: int, args: seq<Operand>)

  /** The value that an instruction defines. */
  function Defined(inst: Inst): Option<Id> {
    match inst
    case Store(_, _) => None
    case Call(result, _, _) => result
    case _ => Some(inst.id)
  }

  datatype Phi = Phi(id: Id, pairs: seq<(Operand, Block)>)

  datatype Term = Br(target: Block) | CondBr(cond: Operand, ifTrue: Block, ifFalse: Block) | Ret(val: Option<Operand>)

  datatype Function = Function(
    args: seq<Id>,
    blocks: seq<Block>,
    phis: map<Block, seq<Phi>>,
    body: map<Block, seq<Inst>>,
    term: map<Block, Term>,
    ty: map<Id, Type>)

  function Targets(t: Term): seq<Block> {
    match t
    case Br(b) => [b]
    case CondBr(_, b, c) => [b, c]
    case Ret(_) => []
  }

  function BinaryValue(op: BinaryOp, a: int, b: int): int {
    match op
    case Add => S32(a + b)
    case Sub => S32(a - b)
    case Mul => S32(a * b)
    case Sdiv => S32(DivTrunc(a, b))
  }

  function Bit(c: bool): int {
    if c then 1 else 0
  }

  ghost function Values(l: Layout, s: IrState, vs: seq<Operand>): (r: seq<int>)
    ensures |r| == |vs| && forall i | 0 <= i < |vs| :: r[i] == Value(l, s, vs[i])
  {
    seq(|vs|, i requires 0 <= i < |vs| => Value(l, s, vs[i]))
  }

  /** The offset that the code computes is the true one: it is not negative and has 32 bits. */
  predicate OffsetFits(index: int, size: int) {
    0 <= index * size < TWO_32
  }

  /** The comparison that the code computes is the true one: no wrap at the largest int. */
  predicate CompareFits(cmp: Comparison, a: int, b: int) {
    && (cmp.Le? ==> b != TWO_31 - 1)
    && (cmp.Ge? ==> a != TWO_31 - 1)
  }

  /** What an instruction does. Where an operand is not defined, or one of the code generator's shortcuts
      is hit, there is no result. */
  ghost function Step(l: Layout, s: IrState, inst: Inst): IrState {
    match inst
    case Binary(id, op, a, b) => Assign(s, id, IsSet(s, a) && IsSet(s, b), BinaryValue(op, Value(l, s, a), Value(l, s, b)))
    case Compare(id, cmp, a, b) =>
      var x, y := Value(l, s, a), Value(l, s, b);
      Assign(s, id, IsSet(s, a) && IsSet(s, b) && CompareFits(cmp, x, y), Bit(Holds(cmp, x, y)))
    case Zext(id, v) => Assign(s, id, IsSet(s, v), Value(l, s, v))
    case GepElement(id, base, i, size) =>
      Assign(s, id, IsSet(s, base) && IsSet(s, i) && OffsetFits(Value(l, s, i), size), S64(Value(l, s, base) + Value(l, s, i) * size))
    case GepArray(id, base, i, j, arraySize, elementSize) =>
      Assign(s, id, IsSet(s, base) && IsSet(s, i) && IsSet(s, j) && OffsetFits(Value(l, s, i), arraySize) && OffsetFits(Value(l, s, j), elementSize),
             S64(Value(l, s, base) + Value(l, s, i) * arraySize + Value(l, s, j) * elementSize))
    case Load(id, ptr) => s.(env := s.env[id := LoadValue(s.mem, TypeOf(l, Var(id)), Value(l, s, ptr))])
    case Store(v, ptr) => s.(mem := StoreBytes(s.mem, Value(l, s, ptr), Size(TypeOf(l, v)), Value(l, s, v)))
    case Alloca(id, size) => s.(env := s.env[id := if id in l.off then l.fp + l.off[id] - size else 0])
    case Call(result, callee, args) =>
      var s' := Invoked(l, s, callee, Values(l, s, args));
      if result.Some? then s'.(env := s.env[result.value := l.callees.val(callee, Values(l, s, args), s.mem, s.trace)]) else s'
  }

  /** What is left by a call. */
  ghost function Invoked(l: Layout, s: IrState, callee: int, vals: seq<int>): IrState {
    s.(mem := l.callees.effect(callee, vals, s.mem, s.trace), trace := s.trace + [CallRecord(callee, vals)])
  }

  ghost predicate TypedAs(l: Layout, s: IrState, v: Operand, t: Type) {
    Known(l, s, v) && TypeOf(l, v) == t
  }

  ghost predicate ArgsKnown(l: Layout, s: IrState, vs: seq<Operand>) {
    forall i | 0 <= i < |vs| :: Known(l, s, vs[i]) && TypeOf(l, vs[i]) != I1
  }

  /** Operands are well-typed; addresses, stored values and arguments are defined; accesses stay outside the private part
      of the frame, and the body of an alloca is in reach. */
  ghost predicate Safe(l: Layout, s: IrState, inst: Inst) {
    && (Defined(inst).Some? ==> Defined(inst).value in l.off && Defined(inst).value in l.ty)
    && match inst
       case Binary(id, _, a, b) => HasType(l, a, I32) && HasType(l, b, I32) && l.ty[id] == I32
       case Compare(id, cmp, a, b) => HasType(l, a, I32) && HasType(l, b, I32) && l.ty[id] == I1
       case Zext(id, v) => HasType(l, v, I1) && l.ty[id] == I32
       case GepElement(id, base, i, size) => HasType(l, base, Ptr) && HasType(l, i, I32) && l.ty[id] == Ptr && 0 <= size < TWO_31
       case GepArray(id, base, i, j, arraySize, elementSize) =>
         && HasType(l, base, Ptr) && HasType(l, i, I32) && HasType(l, j, I32) && l.ty[id] == Ptr
         && 0 <= arraySize < TWO_31 && 0 <= elementSize < TWO_31
       case Load(id, ptr) => TypedAs(l, s, ptr, Ptr) && PublicRange(l, Value(l, s, ptr), Size(l.ty[id]))
       case Store(v, ptr) =>
         Known(l, s, v) && TypeOf(l, v) != I1 && TypedAs(l, s, ptr, Ptr) && PublicRange(l, Value(l, s, ptr), Size(TypeOf(l, v)))
       case Alloca(id, size) => l.ty[id] == Ptr && Imm12(l.off[id] - size) && -TWO_63 <= l.fp + l.off[id] - size
       case Call(result, callee, args) =>
         && ArgsKnown(l, s, args) && |args| == l.callees.arity(callee)
         && (result.Some? ==> !l.callees.isVoid(callee) && l.ty[result.value] == I32)
  }

  // ----- short instruction sequences -----

  lemma ExecOne(st: State, i: Asm)
    ensures Exec(st, [i]) == Exec1(st, i)
  {
    assert [i][..0] == [];
  }

  lemma ExecTwo(st: State, i: Asm, j: Asm)
    ensures Exec(st, [i, j]) == Exec1(Exec1(st, i), j)
  {
    ExecOne(st, i);
    assert [i, j][..1] == [i];
  }

  lemma ExecThree(st: State, i: Asm, j: Asm, k: Asm)
    ensures Exec(st, [i, j, k]) == Exec1(Exec1(Exec1(st, i), j), k)
  {
    ExecTwo(st, i, j);
    assert [i, j, k][..2] == [i, j];
  }

  // ----- constants -----

  lemma OrLow(h: int, y: nat)
    requires -0x80000 <= h < 0x80000 && y < 4096
    ensures S64(OrBits(S32(h * 4096), y, 64)) == h * 4096 + y
  {
    hide OrBits, Pow2;
    Pow2Small();
    Pow2Word();
    OrIsSum(h, y, 12, 64);
  }

  /** lu12i.w with the upper twenty bits, then ori with the lower twelve. */
  lemma LargeInt32Loads(st: State, reg: Reg, val: int)
    requires -TWO_31 <= val < TWO_31 && !reg.Zero?
    ensures Exec(st, [Lu12iW(reg, val / 4096), Ori(reg, reg, val % 4096)]) == st.(regs := st.regs[reg := val])
    ensures Encodable(Lu12iW(reg, val / 4096)) && Encodable(Ori(reg, reg, val % 4096))
  {
    hide OrBits, Pow2, Exec, S32, S64;
    ExecTwo(st, Lu12iW(reg, val / 4096), Ori(reg, reg, val % 4096));
    OrLow(val / 4096, val % 4096);
    assert st.regs[reg := S32(val / 4096 * 4096)][reg := val] == st.regs[reg := val];
  }

  /** The next twenty bits of a 64-bit constant, sign-extended, and the top twelve. */
  function Middle20(val: int): int {
    var m := (val / TWO_32) % 0x10_0000;
    if m < 0x8_0000 then m else m - 0x10_0000
  }

  function Top12(val: int): int {
    val / 0x10_0000_0000_0000
  }

  lemma Assembled(val: int)
    requires -TWO_63 <= val < TWO_63
    ensures var w := S64(Middle20(val) * TWO_32 + S32(val) % TWO_32);
            S64(Top12(val) * 0x10_0000_0000_0000 + w % 0x10_0000_0000_0000) == val
  {
    var high, low := val / TWO_32, val % TWO_32;
    var h, m := high / 0x10_0000, high % 0x10_0000;
    assert S32(val) % TWO_32 == low;
    assert val == h * 0x10_0000_0000_0000 + m * TWO_32 + low;
    assert Top12(val) == h;
    var w := Middle20(val) * TWO_32 + low;
    assert S64(w) == w;
    assert w % 0x10_0000_0000_0000 == m * TWO_32 + low;
  }

  lemma LargeInt64Loads(st: State, reg: Reg, val: int)
    requires -TWO_63 <= val < TWO_63 && !reg.Zero?
    ensures Exec(st.(regs := st.regs[reg := S32(val)]), [Lu32iD(reg, Middle20(val)), Lu52iD(reg, reg, Top12(val))])
            == st.(regs := st.regs[reg := val])
  {
    hide Exec, S32, S64, OrBits, Pow2;
    ExecTwo(st.(regs := st.regs[reg := S32(val)]), Lu32iD(reg, Middle20(val)), Lu52iD(reg, reg, Top12(val)));
    Assembled(val);
    var w := S64(Middle20(val) * TWO_32 + S32(val) % TWO_32);
    assert st.regs[reg := S32(val)][reg := w][reg := val] == st.regs[reg := val];
  }

  lemma LargeInt64Encodable(reg: Reg, val: int)
    requires -TWO_63 <= val < TWO_63
    ensures Encodable(Lu32iD(reg, Middle20(val))) && Encodable(Lu52iD(reg, reg, Top12(val)))
  {
  }

  // ----- comparisons -----

  /** The instructions after both operands are in t0 and t1; the result is in t0. */
  function CompareCode(cmp: Comparison): seq<Asm> {
    match cmp
    case Eq => [Alu(Slt, T(2), T(0), T(1)), Alu(Slt, T(3), T(1), T(0)), Alu(Nor, T(0), T(2), T(3))]
    case Ne => [Alu(Slt, T(2), T(0), T(1)), Alu(Slt, T(3), T(1), T(0)), Alu(Or, T(0), T(2), T(3))]
    case Lt => [Alu(Slt, T(0), T(0), T(1))]
    case Le => [AddiW(T(1), T(1), 1), Alu(Slt, T(0), T(0), T(1))]
    case Gt => [Alu(Slt, T(0), T(1), T(0))]
    case Ge => [AddiW(T(0), T(0), 1), Alu(Slt, T(0), T(1), T(0))]
  }

  ghost predicate OnlyTemporaries(st: State, st': State) {
    && st'.mem == st.mem && SameSurroundings(st, st')
    && forall r: Reg | !r.T? :: Get(st'.regs, r) == Get(st.regs, r)
  }

  predicate IntoTemporary(i: Asm) {
    (i.Alu? || i.AddiW? || i.BstrpickW? || i.BstrpickD?) && i.rd.T?
  }

  lemma {:induction false} TemporariesOnly(st: State, code: seq<Asm>)
    requires forall i | 0 <= i < |code| :: IntoTemporary(code[i])
    ensures OnlyTemporaries(st, Exec(st, code))
    decreases |code|
  {
    hide Result;
    if code != [] {
      TemporariesOnly(st, code[..|code| - 1]);
      assert IntoTemporary(code[|code| - 1]);
    }
  }

  /** What t0 holds after the comparison of a with b. */
  ghost predicate CompareOutcome(st: State, st': State, cmp: Comparison, a: int, b: int) {
    && OnlyTemporaries(st, st') && -TWO_63 <= Get(st'.regs, T(0)) < TWO_63
    && (Get(st'.regs, T(0)) % 2 == Bit(Holds(cmp, a, b)) <==> CompareFits(cmp, a, b))
  }

  /** An eq result has bit 0 right, and all its other bits are set. */
  lemma EqValue(st: State, a: int, b: int)
    requires Get(st.regs, T(0)) == a && Get(st.regs, T(1)) == b
    ensures Get(Exec(st, CompareCode(Eq)).regs, T(0)) == (if a == b then -1 else -2)
  {
    hide OrBits, Exec, Pow2;
    var code := CompareCode(Eq);
    ExecThree(st, code[0], code[1], code[2]);
    OrOfBits(Bit(a < b), Bit(b < a), 64);
  }

  lemma NeValue(st: State, a: int, b: int)
    requires Get(st.regs, T(0)) == a && Get(st.regs, T(1)) == b
    ensures Get(Exec(st, CompareCode(Ne)).regs, T(0)) == Bit(a != b)
  {
    hide OrBits, Exec, Pow2;
    var code := CompareCode(Ne);
    ExecThree(st, code[0], code[1], code[2]);
    OrOfBits(Bit(a < b), Bit(b < a), 64);
  }

  lemma CompareShifted(st: State, cmp: Comparison, a: int, b: int)
    requires cmp.Le? || cmp.Ge?
    requires Get(st.regs, T(0)) == a && Get(st.regs, T(1)) == b
    requires -TWO_31 <= a < TWO_31 && -TWO_31 <= b < TWO_31
    ensures CompareOutcome(st, Exec(st, CompareCode(cmp)), cmp, a, b)
  {
    hide Exec, OnlyTemporaries, S32;
    var code := CompareCode(cmp);
    TemporariesOnly(st, code);
    ExecTwo(st, code[0], code[1]);
    ShiftedLess(a, b);
    ShiftedLess(b, a);
  }

  lemma ShiftedLess(a: int, b: int)
    requires -TWO_31 <= a < TWO_31 && -TWO_31 <= b < TWO_31
    ensures (a < S32(b + 1) <==> a <= b) <==> b != TWO_31 - 1
  {
  }

  /** Bit 0 of the result is the comparison if and only if nothing wraps at the largest int. */
  lemma CompareExact(st: State, cmp: Comparison, a: int, b: int)
    requires Get(st.regs, T(0)) == a && Get(st.regs, T(1)) == b
    requires -TWO_31 <= a < TWO_31 && -TWO_31 <= b < TWO_31
    ensures CompareOutcome(st, Exec(st, CompareCode(cmp)), cmp, a, b)
  {
    hide OrBits, Exec, Pow2, OnlyTemporaries;
    TemporariesOnly(st, CompareCode(cmp));
    match cmp
    case Eq => EqValue(st, a, b);
    case Ne => NeValue(st, a, b);
    case Le => CompareShifted(st, cmp, a, b);
    case Ge => CompareShifted(st, cmp, a, b);
    case _ => ExecOne(st, CompareCode(cmp)[0]);
  }

  /** With the largest int on the right everything is less or equal, but bit 0 of the result is clear. */
  lemma LeAtLargest(st: State, a: int)
    requires Get(st.regs, T(0)) == a && Get(st.regs, T(1)) == TWO_31 - 1 && -TWO_31 <= a < TWO_31
    ensures Holds(Le, a, TWO_31 - 1) && Get(Exec(st, CompareCode(Le)).regs, T(0)) % 2 == 0
  {
    hide OrBits, Exec, Pow2;
    var code := CompareCode(Le);
    ExecTwo(st, code[0], code[1]);
  }

  // ----- element addresses -----

  /** Index times size, cut to 32 bits and zero-extended, as the code computes it. */
  function OffsetOf(index: int, size: int): int {
    S32(S32(index) * S32(size)) % TWO_32
  }

  /** The code's address is the element's if and only if the offset is not negative and has 32 bits. */
  lemma OffsetExact(base: int, index: int, size: int)
    requires -TWO_31 <= index < TWO_31 && 0 <= size < TWO_31
    ensures 0 <= OffsetOf(index, size) < TWO_32
    ensures S64(base + OffsetOf(index, size)) == S64(base + index * size) <==> OffsetFits(index, size)
    ensures OffsetFits(index, size) ==> OffsetOf(index, size) == index * size
  {
    hide S64, OffsetOf;
    var p := index * size;
    ProductBound(index, size);
    OffsetIs(index, size);
    AddressUnique(base, p % TWO_32, p);
    FitsSame(p);
  }

  lemma OffsetIs(index: int, size: int)
    requires -TWO_31 <= index < TWO_31 && 0 <= size < TWO_31
    ensures OffsetOf(index, size) == index * size % TWO_32
  {
    OffsetMod(index * size);
  }

  lemma FitsSame(p: int)
    ensures 0 <= p % TWO_32 < TWO_32 && (p % TWO_32 == p <==> 0 <= p < TWO_32)
  {
  }

  /** One element in front of the base: the address is four gigabytes too high. */
  lemma OffsetOfMinusOne(base: int)
    ensures OffsetOf(-1, 4) == TWO_32 - 4 && S64(base + OffsetOf(-1, 4)) != S64(base - 4)
  {
    OffsetExact(base, -1, 4);
  }

  /** An index that is not negative and yet fails: the address is that of the base. */
  lemma OffsetOfBillion(base: int)
    ensures OffsetOf(0x4000_0000, 4) == 0 && S64(base + OffsetOf(0x4000_0000, 4)) != S64(base + 0x4000_0000 * 4)
  {
    OffsetExact(base, 0x4000_0000, 4);
  }

  lemma MulMonotone(x: int, y: int, z: int)
    requires x <= y && 0 <= z
    ensures x * z <= y * z
  {
  }

  lemma ProductBound(index: int, size: int)
    requires -TWO_31 <= index < TWO_31 && 0 <= size < TWO_31
    ensures -TWO_31 * TWO_31 <= index * size <= TWO_31 * TWO_31
  {
    MulMonotone(-TWO_31, index, size);
    MulMonotone(index, TWO_31, size);
  }

  lemma OffsetMod(p: int)
    ensures S32(p) % TWO_32 == p % TWO_32
  {
  }

  lemma AddressUnique(base: int, p: int, q: int)
    requires 0 <= p < TWO_32 && -TWO_31 * TWO_31 <= q <= TWO_31 * TWO_31
    ensures S64(base + p) == S64(base + q) <==> p == q
  {
    if S64(base + p) == S64(base + q) {
      assert (p - q) % TWO_64 == 0;
    }
  }

  lemma CongruentAddress(x: int, y: int)
    requires (x - y) % TWO_64 == 0
    ensures S64(x) == S64(y)
  {
    assert x == y + TWO_64 * ((x - y) / TWO_64);
    assert x % TWO_64 == y % TWO_64;
  }

  lemma AddressSum(base: int, p: int, q: int)
    ensures S64(S64(base + p) + q) == S64(base + p + q)
  {
    assert (S64(base + p) + q - (base + p + q)) % TWO_64 == 0;
    CongruentAddress(S64(base + p) + q, base + p + q);
  }

  lemma Pow2Half()
    ensures Pow2(32) == TWO_32
  {
    assert Pow2(4) == 16 by {
      assert Pow2(2) == 4;
    }
    Pow2Double(4, 16);
    Pow2Double(8, 256);
    Pow2Double(16, 0x1_0000);
  }

  /** With the base in t0, the index in t1 and the size in t3: the address, in t0. */
  const ELEMENT_CODE: seq<Asm> := [Alu(MulW, T(1), T(1), T(3)), BstrpickD(T(1), T(1), 31), Alu(AddD, T(0), T(0), T(1))]

  lemma Word64Same(x: int)
    requires 0 <= x < TWO_32
    ensures S64(x) == x
  {
  }

  /** The first two instructions put the offset into t1. */
  lemma ElementOffset(st: State, index: int, size: int)
    requires Get(st.regs, T(1)) == index && Get(st.regs, T(3)) == size
    ensures var st' := Exec1(Exec1(st, ELEMENT_CODE[0]), ELEMENT_CODE[1]);
            Get(st'.regs, T(1)) == OffsetOf(index, size) && Get(st'.regs, T(0)) == Get(st.regs, T(0))
  {
    hide OrBits, S32, S64, Pow2;
    Pow2Half();
    Word64Same(S32(S32(index) * S32(size)) % TWO_32);
  }

  lemma ElementAddress(st: State, index: int, size: int)
    requires Get(st.regs, T(1)) == index && Get(st.regs, T(3)) == size
    ensures OnlyTemporaries(st, Exec(st, ELEMENT_CODE))
    ensures Get(Exec(st, ELEMENT_CODE).regs, T(0)) == S64(Get(st.regs, T(0)) + OffsetOf(index, size))
  {
    hide Exec, OnlyTemporaries, OrBits, S32, S64, Pow2, OffsetOf;
    TemporariesOnly(st, ELEMENT_CODE);
    ExecThree(st, ELEMENT_CODE[0], ELEMENT_CODE[1], ELEMENT_CODE[2]);
    ElementOffset(st, index, size);
    var st' := Exec1(Exec1(st, ELEMENT_CODE[0]), ELEMENT_CODE[1]);
    assert Get(Exec1(st', ELEMENT_CODE[2]).regs, T(0)) == S64(Get(st'.regs, T(0)) + Get(st'.regs, T(1)));
  }

  /** The same for two indices, in t1 and t2, and two sizes, in t3 and t4. */
  const ARRAY_MULS: seq<Asm> := [Alu(MulW, T(1), T(1), T(3)), Alu(MulW, T(2), T(2), T(4))]
  const ARRAY_PICKS: seq<Asm> := [BstrpickD(T(1), T(1), 31), BstrpickD(T(2), T(2), 31)]
  const ARRAY_ADDS: seq<Asm> := [Alu(AddD, T(0), T(0), T(1)), Alu(AddD, T(0), T(0), T(2))]

  /** t1 and t2 hold x and y now; nothing but them has changed. */
  ghost predicate PairSet(st: State, st': State, x: int, y: int) {
    st' == st.(regs := st.regs[T(1) := x][T(2) := y])
  }

  lemma ArrayMuls(st: State)
    ensures PairSet(st, Exec(st, ARRAY_MULS), S32(S32(Get(st.regs, T(1))) * S32(Get(st.regs, T(3)))),
                    S32(S32(Get(st.regs, T(2))) * S32(Get(st.regs, T(4)))))
  {
    hide Exec, OrBits, S32;
    ExecTwo(st, ARRAY_MULS[0], ARRAY_MULS[1]);
  }

  lemma ArrayPicks(st: State)
    ensures PairSet(st, Exec(st, ARRAY_PICKS), Get(st.regs, T(1)) % TWO_32, Get(st.regs, T(2)) % TWO_32)
  {
    hide Exec, OrBits, Pow2;
    Pow2Half();
    ExecTwo(st, ARRAY_PICKS[0], ARRAY_PICKS[1]);
  }

  lemma ArrayAdds(st: State)
    ensures Get(Exec(st, ARRAY_ADDS).regs, T(0)) == S64(Get(st.regs, T(0)) + Get(st.regs, T(1)) + Get(st.regs, T(2)))
  {
    hide Exec, OrBits, S64;
    ExecTwo(st, ARRAY_ADDS[0], ARRAY_ADDS[1]);
    AddressSum(Get(st.regs, T(0)), Get(st.regs, T(1)), Get(st.regs, T(2)));
  }

  lemma ArrayAddress(st: State, i: int, j: int, arraySize: int, elementSize: int)
    requires Get(st.regs, T(1)) == i && Get(st.regs, T(2)) == j
    requires Get(st.regs, T(3)) == arraySize && Get(st.regs, T(4)) == elementSize
    ensures var st' := Exec(st, ARRAY_MULS + ARRAY_PICKS + ARRAY_ADDS);
            && OnlyTemporaries(st, st')
            && Get(st'.regs, T(0)) == S64(Get(st.regs, T(0)) + OffsetOf(i, arraySize) + OffsetOf(j, elementSize))
  {
    hide Exec, OnlyTemporaries, S32, S64, Pow2, ARRAY_MULS, ARRAY_PICKS, ARRAY_ADDS;
    ArrayTemporaries(st);
    ExecAppend(st, ARRAY_MULS + ARRAY_PICKS, ARRAY_ADDS);
    ExecAppend(st, ARRAY_MULS, ARRAY_PICKS);
    ArrayMuls(st);
    ArrayPicks(Exec(st, ARRAY_MULS));
    ArrayAdds(Exec(Exec(st, ARRAY_MULS), ARRAY_PICKS));
  }

  lemma ArrayTemporaries(st: State)
    ensures OnlyTemporaries(st, Exec(st, ARRAY_MULS + ARRAY_PICKS + ARRAY_ADDS))
  {
    hide Exec, OnlyTemporaries;
    TemporariesOnly(st, ARRAY_MULS + ARRAY_PICKS + ARRAY_ADDS);
  }
}
