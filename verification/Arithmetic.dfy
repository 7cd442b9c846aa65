/** What emitted code computes, in plain numbers: sums, differences and products that wrap, quotients that truncate,
    comparisons and element addresses. */
module Arithmetic {
  import opened Common
  import opened LoongArch
  import opened Frame
  import opened LowIr
  import opened Fragments

  /** q is x over y without the remainder, which is smaller than y and has the sign of x. */
  ghost predicate Truncated(x: int, y: int, q: int) {
    var r := x - q * y;
    (if y > 0 then -y < r < y else y < r < -y) && (r > 0 ==> x > 0) && (r < 0 ==> x < 0)
  }

  lemma QuotientExact(x: int, y: int)
    requires y != 0
    ensures Truncated(x, y, DivTrunc(x, y))
  {
    var q := DivTrunc(x, y);
    if y > 0 {
      SignedRemainder(x, y, q);
    } else {
      SignedRemainder(x, -y, -q);
      assert q * y == -q * -y;
    }
  }

  /** Dividing by a positive number. */
  lemma SignedRemainder(x: int, y: int, q: int)
    requires y > 0 && q == if x >= 0 then x / y else -(-x / y)
    ensures -y < x - q * y < y && (x - q * y > 0 ==> x > 0) && (x - q * y < 0 ==> x < 0)
  {
    if x >= 0 {
      assert x == y * (x / y) + x % y;
    } else {
      assert -x == y * (-x / y) + -x % y;
    }
  }

  /** w is what the operation gives for x and y in 32 bits. */
  ghost predicate ArithmeticIs(op: BinaryOp, x: int, y: int, w: int) {
    && (op == Add ==> w == S32(x + y))
    && (op == Sub ==> w == S32(x - y))
    && (op == Mul ==> w == S32(x * y))
    && (op == Sdiv && y != 0 ==> exists q :: Truncated(x, y, q) && w == S32(q))
  }

  lemma BinaryExact(op: BinaryOp, x: int, y: int)
    ensures ArithmeticIs(op, x, y, BinaryValue(op, x, y))
  {
    hide Truncated, DivTrunc, S32;
    if y != 0 {
      QuotientExact(x, y);
    }
  }

  /** What a comparison says. */
  ghost predicate ComparisonIs(cmp: Comparison, x: int, y: int, c: bool) {
    && (cmp == Lt ==> (c <==> x < y)) && (cmp == Le ==> (c <==> x <= y)) && (cmp == Gt ==> (c <==> x > y))
    && (cmp == Ge ==> (c <==> x >= y)) && (cmp == Eq ==> (c <==> x == y)) && (cmp == Ne ==> (c <==> x != y))
  }

  // ----- the emitted code -----

  /** What is in the slot of a value. */
  ghost function InSlot(l: Layout, st: State, id: Id): int
    requires id in l.off && id in l.ty
  {
    LoadValue(st.mem, l.ty[id], l.fp + l.off[id])
  }

  /** Operands that have values of this type. */
  ghost predicate HasValue(l: Layout, s: IrState, v: Operand, t: Type) {
    HasType(l, v, t) && IsSet(s, v)
  }

  ghost predicate Slot(l: Layout, id: Id, t: Type) {
    id in l.off && id in l.ty && l.ty[id] == t
  }

  ghost predicate ComputesBinary(off: map<Id, int>, ty: map<Id, Type>, code: seq<Asm>, id: Id, op: BinaryOp, a: Operand, b: Operand) {
    forall l, s, st | Fits(l, off, ty) && Agree(l, s, st) && Slot(l, id, I32) && HasValue(l, s, a, I32) && HasValue(l, s, b, I32) ::
      ArithmeticIs(op, Value(l, s, a), Value(l, s, b), InSlot(l, Exec(st, code), id))
  }

  /** Bit 0 of the slot, if nothing wraps at the largest int. */
  ghost predicate ComputesCompare(off: map<Id, int>, ty: map<Id, Type>, code: seq<Asm>, id: Id, cmp: Comparison, a: Operand, b: Operand) {
    forall l, s, st | Fits(l, off, ty) && Agree(l, s, st) && Slot(l, id, I1) && HasValue(l, s, a, I32) && HasValue(l, s, b, I32)
                      && !(cmp == Le && Value(l, s, b) == 2147483647) && !(cmp == Ge && Value(l, s, a) == 2147483647) ::
      ComparisonIs(cmp, Value(l, s, a), Value(l, s, b), InSlot(l, Exec(st, code), id) == 1)
  }

  /** Base plus index times size, if that product is not negative and has 32 bits. */
  ghost predicate ComputesElement(off: map<Id, int>, ty: map<Id, Type>, code: seq<Asm>, id: Id, base: Operand, i: Operand, size: int) {
    forall l, s, st | Fits(l, off, ty) && Agree(l, s, st) && Slot(l, id, Ptr) && HasValue(l, s, base, Ptr) && HasValue(l, s, i, I32)
                      && 0 <= size < TWO_31 && 0 <= Value(l, s, i) * size < TWO_32 ::
      InSlot(l, Exec(st, code), id) == S64(Value(l, s, base) + Value(l, s, i) * size)
  }

  ghost predicate ComputesArray(off: map<Id, int>, ty: map<Id, Type>, code: seq<Asm>, id: Id, base: Operand, i: Operand, m: int, j: Operand, n: int) {
    forall l, s, st | Fits(l, off, ty) && Agree(l, s, st) && Slot(l, id, Ptr) && HasValue(l, s, base, Ptr) && HasValue(l, s, i, I32) && HasValue(l, s, j, I32)
                      && 0 <= m < TWO_31 && 0 <= n < TWO_31 && 0 <= Value(l, s, i) * m < TWO_32 && 0 <= Value(l, s, j) * n < TWO_32 ::
      InSlot(l, Exec(st, code), id) == S64(Value(l, s, base) + Value(l, s, i) * m + Value(l, s, j) * n)
  }

  /** The same number in four bytes. */
  ghost predicate ComputesZext(off: map<Id, int>, ty: map<Id, Type>, code: seq<Asm>, id: Id, v: Operand) {
    forall l, s, st | Fits(l, off, ty) && Agree(l, s, st) && Slot(l, id, I32) && HasValue(l, s, v, I1) :: InSlot(l, Exec(st, code), id) == Value(l, s, v)
  }

  /** Memory that programs can address. */
  ghost predicate Accessible(l: Layout, s: IrState, ptr: Operand, n: nat) {
    HasValue(l, s, ptr, Ptr) && PublicRange(l, Value(l, s, ptr), n)
  }

  /** What is in memory at the address. */
  ghost predicate ComputesLoad(off: map<Id, int>, ty: map<Id, Type>, code: seq<Asm>, id: Id, ptr: Operand) {
    forall l, s, st | Fits(l, off, ty) && Agree(l, s, st) && Slot(l, id, I32) && Accessible(l, s, ptr, 4) ::
      InSlot(l, Exec(st, code), id) == LoadValue(st.mem, I32, Value(l, s, ptr))
  }

  ghost predicate Stored(l: Layout, st: State, st': State, x: int, p: int) {
    && LoadValue(st'.mem, I32, p) == x
    && (forall a | !Private(l, a) && !(p <= a < p + 4) :: ByteAt(st'.mem, a) == ByteAt(st.mem, a))
    && forall i | i in l.off && i in l.ty :: InSlot(l, st', i) == InSlot(l, st, i)
  }

  /** The value is in memory at the address; all other memory and all slots are as before. */
  ghost predicate ComputesStore(off: map<Id, int>, ty: map<Id, Type>, code: seq<Asm>, v: Operand, ptr: Operand) {
    forall l, s, st | Fits(l, off, ty) && Agree(l, s, st) && HasValue(l, s, v, I32) && Accessible(l, s, ptr, 4) ::
      Stored(l, st, Exec(st, code), Value(l, s, v), Value(l, s, ptr))
  }

  /** The address of the memory below the slot. */
  ghost predicate ComputesAlloca(off: map<Id, int>, ty: map<Id, Type>, code: seq<Asm>, id: Id, size: nat) {
    forall l, s, st | Fits(l, off, ty) && Agree(l, s, st) && Slot(l, id, Ptr) && l.off[id] - size >= -2048 && l.fp + l.off[id] - size >= -TWO_63 ::
      InSlot(l, Exec(st, code), id) == l.fp + l.off[id] - size
  }

  /** Ints and addresses can be arguments. */
  ghost predicate ArgsHaveValues(l: Layout, s: IrState, args: seq<Operand>) {
    forall i | 0 <= i < |args| :: HasValue(l, s, args[i], I32) || HasValue(l, s, args[i], Ptr)
  }

  /** What the callee gives for the values of the arguments; the call is recorded with them. */
  ghost predicate ComputesCall(off: map<Id, int>, ty: map<Id, Type>, code: seq<Asm>, id: Id, callee: int, args: seq<Operand>) {
    forall l, s, st | Fits(l, off, ty) && Agree(l, s, st) && Slot(l, id, I32) && ArgsHaveValues(l, s, args)
                      && |args| == l.callees.arity(callee) && !l.callees.isVoid(callee) ::
      && InSlot(l, Exec(st, code), id) == l.callees.val(callee, Values(l, s, args), s.mem, s.trace)
      && Exec(st, code).trace == st.trace + [CallRecord(callee, Values(l, s, args))]
  }

  /** The slot of a value that an instruction has defined. */
  lemma SlotAfter(off: map<Id, int>, ty: map<Id, Type>, code: seq<Asm>, inst: Inst, l: Layout, s: IrState, st: State, id: Id, t: Type, x: int)
    requires Simulates(off, ty, code, inst) && Fits(l, off, ty) && Agree(l, s, st) && Safe(l, s, inst) && Slot(l, id, t)
    requires id in Step(l, s, inst).env && Step(l, s, inst).env[id] == x
    ensures InSlot(l, Exec(st, code), id) == x
  {
    hide Fits, Safe, Step, Exec, LoadValue, ByteAt, Private;
    assert Agree(l, Step(l, s, inst), Exec(st, code));
  }

  lemma BinaryComputed(off: map<Id, int>, ty: map<Id, Type>, code: seq<Asm>, id: Id, op: BinaryOp, a: Operand, b: Operand)
    requires Simulates(off, ty, code, Binary(id, op, a, b))
    ensures ComputesBinary(off, ty, code, id, op, a, b)
  {
    hide Simulates, Fits, Agree, Exec, BinaryValue, ArithmeticIs, InSlot, Value;
    forall l, s, st | Fits(l, off, ty) && Agree(l, s, st) && Slot(l, id, I32) && HasValue(l, s, a, I32) && HasValue(l, s, b, I32)
      ensures ArithmeticIs(op, Value(l, s, a), Value(l, s, b), InSlot(l, Exec(st, code), id))
    {
      var x, y := Value(l, s, a), Value(l, s, b);
      SlotAfter(off, ty, code, Binary(id, op, a, b), l, s, st, id, I32, BinaryValue(op, x, y));
      BinaryExact(op, x, y);
    }
  }

  lemma CompareComputed(off: map<Id, int>, ty: map<Id, Type>, code: seq<Asm>, id: Id, cmp: Comparison, a: Operand, b: Operand)
    requires Simulates(off, ty, code, Compare(id, cmp, a, b))
    ensures ComputesCompare(off, ty, code, id, cmp, a, b)
  {
    hide Simulates, Fits, Agree, Exec, InSlot, Value;
    forall l, s, st | Fits(l, off, ty) && Agree(l, s, st) && Slot(l, id, I1) && HasValue(l, s, a, I32) && HasValue(l, s, b, I32)
                      && !(cmp == Le && Value(l, s, b) == 2147483647) && !(cmp == Ge && Value(l, s, a) == 2147483647)
      ensures ComparisonIs(cmp, Value(l, s, a), Value(l, s, b), InSlot(l, Exec(st, code), id) == 1)
    {
      SlotAfter(off, ty, code, Compare(id, cmp, a, b), l, s, st, id, I1, Bit(Holds(cmp, Value(l, s, a), Value(l, s, b))));
    }
  }

  lemma ElementComputed(off: map<Id, int>, ty: map<Id, Type>, code: seq<Asm>, id: Id, base: Operand, i: Operand, size: int)
    requires Simulates(off, ty, code, GepElement(id, base, i, size))
    ensures ComputesElement(off, ty, code, id, base, i, size)
  {
    hide Simulates, Fits, Agree, Exec, InSlot, Value, S64;
    forall l, s, st | Fits(l, off, ty) && Agree(l, s, st) && Slot(l, id, Ptr) && HasValue(l, s, base, Ptr) && HasValue(l, s, i, I32)
                      && 0 <= size < TWO_31 && 0 <= Value(l, s, i) * size < TWO_32
      ensures InSlot(l, Exec(st, code), id) == S64(Value(l, s, base) + Value(l, s, i) * size)
    {
      SlotAfter(off, ty, code, GepElement(id, base, i, size), l, s, st, id, Ptr, S64(Value(l, s, base) + Value(l, s, i) * size));
    }
  }

  lemma ArrayComputed(off: map<Id, int>, ty: map<Id, Type>, code: seq<Asm>, id: Id, base: Operand, i: Operand, m: int, j: Operand, n: int)
    requires Simulates(off, ty, code, GepArray(id, base, i, j, m, n))
    ensures ComputesArray(off, ty, code, id, base, i, m, j, n)
  {
    hide Simulates, Fits, Agree, Exec, InSlot, Value, S64;
    forall l, s, st | Fits(l, off, ty) && Agree(l, s, st) && Slot(l, id, Ptr) && HasValue(l, s, base, Ptr) && HasValue(l, s, i, I32) && HasValue(l, s, j, I32)
                      && 0 <= m < TWO_31 && 0 <= n < TWO_31 && 0 <= Value(l, s, i) * m < TWO_32 && 0 <= Value(l, s, j) * n < TWO_32
      ensures InSlot(l, Exec(st, code), id) == S64(Value(l, s, base) + Value(l, s, i) * m + Value(l, s, j) * n)
    {
      SlotAfter(off, ty, code, GepArray(id, base, i, j, m, n), l, s, st, id, Ptr, S64(Value(l, s, base) + Value(l, s, i) * m + Value(l, s, j) * n));
    }
  }

  lemma ZextComputed(off: map<Id, int>, ty: map<Id, Type>, code: seq<Asm>, id: Id, v: Operand)
    requires Simulates(off, ty, code, Zext(id, v))
    ensures ComputesZext(off, ty, code, id, v)
  {
    hide Simulates, Fits, Agree, Exec, InSlot, Value;
    forall l, s, st | Fits(l, off, ty) && Agree(l, s, st) && Slot(l, id, I32) && HasValue(l, s, v, I1) ensures InSlot(l, Exec(st, code), id) == Value(l, s, v) {
      SlotAfter(off, ty, code, Zext(id, v), l, s, st, id, I32, Value(l, s, v));
    }
  }

  lemma LoadComputed(off: map<Id, int>, ty: map<Id, Type>, code: seq<Asm>, id: Id, ptr: Operand)
    requires Simulates(off, ty, code, Load(id, ptr))
    ensures ComputesLoad(off, ty, code, id, ptr)
  {
    hide Simulates, Fits, Agree, Exec, InSlot, Value, LoadValue, Private;
    forall l, s, st | Fits(l, off, ty) && Agree(l, s, st) && Slot(l, id, I32) && Accessible(l, s, ptr, 4)
      ensures InSlot(l, Exec(st, code), id) == LoadValue(st.mem, I32, Value(l, s, ptr))
    {
      LoadPublic(l, s, st, I32, Value(l, s, ptr));
      SlotAfter(off, ty, code, Load(id, ptr), l, s, st, id, I32, LoadValue(s.mem, I32, Value(l, s, ptr)));
    }
  }

  lemma AllocaComputed(off: map<Id, int>, ty: map<Id, Type>, code: seq<Asm>, id: Id, size: nat)
    requires Simulates(off, ty, code, Alloca(id, size))
    ensures ComputesAlloca(off, ty, code, id, size)
  {
    hide Simulates, Agree, Exec, InSlot, CalleesObey;
    forall l, s, st | Fits(l, off, ty) && Agree(l, s, st) && Slot(l, id, Ptr) && l.off[id] - size >= -2048 && l.fp + l.off[id] - size >= -TWO_63
      ensures InSlot(l, Exec(st, code), id) == l.fp + l.off[id] - size
    {
      SlotAfter(off, ty, code, Alloca(id, size), l, s, st, id, Ptr, l.fp + l.off[id] - size);
    }
  }

  /** The state with whatever the slots contain. */
  lemma SlotsKept(l: Layout, s: IrState, st: State, s': IrState, st': State)
    requires Agree(l, s, st) && s'.env == Completed(l, s, st).env && Agree(l, s', st')
    ensures forall i | i in l.off && i in l.ty :: InSlot(l, st', i) == InSlot(l, st, i)
  {
    hide LoadValue, ByteAt, Private;
  }

  lemma StoreKept(l: Layout, s: IrState, st: State, st': State, x: int, p: int)
    requires LayoutOk(l) && Agree(l, s, st) && PublicRange(l, p, 4) && -TWO_31 <= x < TWO_31
    requires var c := Completed(l, s, st); Agree(l, c.(mem := StoreBytes(c.mem, p, 4, x)), st')
    ensures Stored(l, st, st', x, p)
  {
    hide LoadValue, ByteAt, Private, StoreBytes;
    var c := Completed(l, s, st);
    var s' := c.(mem := StoreBytes(c.mem, p, 4, x));
    SlotsKept(l, s, st, s', st');
    LoadPublic(l, s', st', I32, p);
    LoadValueStored(c.mem, I32, p, x, x);
    forall a | !Private(l, a) && !(p <= a < p + 4) ensures ByteAt(st'.mem, a) == ByteAt(st.mem, a) {
      StoreApart(c.mem, p, 4, x, a);
    }
  }

  lemma StoreComputed(off: map<Id, int>, ty: map<Id, Type>, code: seq<Asm>, v: Operand, ptr: Operand)
    requires Simulates(off, ty, code, Store(v, ptr))
    ensures ComputesStore(off, ty, code, v, ptr)
  {
    hide Simulates, Agree, Exec, InSlot, CalleesObey, Stored, LoadValue, Private, StoreBytes, Completed, LayoutOk;
    forall l, s, st | Fits(l, off, ty) && Agree(l, s, st) && HasValue(l, s, v, I32) && Accessible(l, s, ptr, 4)
      ensures Stored(l, st, Exec(st, code), Value(l, s, v), Value(l, s, ptr))
    {
      var c := Completed(l, s, st);
      CompletedAgrees(l, s, st);
      CompletedValue(l, s, st, v, I32);
      CompletedValue(l, s, st, ptr, Ptr);
      CompletedRange(l, s, st, v);
      assert Safe(l, c, Store(v, ptr));
      UseSimulates(off, ty, code, Store(v, ptr), l, c, st);
      StoreKept(l, s, st, Exec(st, code), Value(l, s, v), Value(l, s, ptr));
    }
  }

  lemma UseSimulates(off: map<Id, int>, ty: map<Id, Type>, code: seq<Asm>, inst: Inst, l: Layout, s: IrState, st: State)
    requires Simulates(off, ty, code, inst) && Fits(l, off, ty) && Agree(l, s, st) && Safe(l, s, inst)
    ensures Agree(l, Step(l, s, inst), Exec(st, code))
  {
    hide Fits, Agree, Safe, Step, Exec;
  }

  lemma CompletedRange(l: Layout, s: IrState, st: State, v: Operand)
    requires Agree(l, s, st) && HasValue(l, s, v, I32)
    ensures -TWO_31 <= Value(l, s, v) < TWO_31
  {
    hide LoadBytes, ByteAt, Private;
  }

  lemma ArgKnown(l: Layout, s: IrState, v: Operand)
    requires HasValue(l, s, v, I32) || HasValue(l, s, v, Ptr)
    ensures Known(l, s, v) && TypeOf(l, v) != I1
  {
  }

  lemma TraceAfter(l: Layout, s: IrState, st: State)
    requires Agree(l, s, st)
    ensures st.trace == s.trace
  {
  }

  lemma CallComputed(off: map<Id, int>, ty: map<Id, Type>, code: seq<Asm>, id: Id, callee: int, args: seq<Operand>)
    requires Simulates(off, ty, code, Call(Some(id), callee, args))
    ensures ComputesCall(off, ty, code, id, callee, args)
  {
    hide Simulates, Agree, Exec, InSlot, CalleesObey, Values, LayoutOk, HasValue, Known, TypeOf;
    forall l, s, st | Fits(l, off, ty) && Agree(l, s, st) && Slot(l, id, I32) && ArgsHaveValues(l, s, args)
                      && |args| == l.callees.arity(callee) && !l.callees.isVoid(callee)
      ensures InSlot(l, Exec(st, code), id) == l.callees.val(callee, Values(l, s, args), s.mem, s.trace)
      ensures Exec(st, code).trace == st.trace + [CallRecord(callee, Values(l, s, args))]
    {
      var inst := Call(Some(id), callee, args);
      forall i | 0 <= i < |args| ensures Known(l, s, args[i]) && TypeOf(l, args[i]) != I1 {
        ArgKnown(l, s, args[i]);
      }
      assert Safe(l, s, inst);
      SlotAfter(off, ty, code, inst, l, s, st, id, I32, l.callees.val(callee, Values(l, s, args), s.mem, s.trace));
      UseSimulates(off, ty, code, inst, l, s, st);
      TraceAfter(l, s, st);
      TraceAfter(l, Step(l, s, inst), Exec(st, code));
    }
  }
}
