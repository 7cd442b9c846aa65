/** The stack frame: every value of a function lives in a slot of its own below the
    frame pointer; what it means for a machine state to agree with the values. */
module Frame {
  import opened LoongArch

  /** Identity of an argument or of an instruction that has a value. */
  type Id = int

  datatype Type = I1 | I32 | Ptr

  function Size(t: Type): nat {
    match t
    case I1 => 1
    case I32 => 4
    case Ptr => 8
  }

  function WidthOf(t: Type): (w: Width)
    ensures Bytes(w) == Size(t)
  {
    match t
    case I1 => Byte
    case I32 => Word
    case Ptr => Double
  }

  datatype Operand = Int(c: int) | Global(g: int) | Var(id: Id)

  /** Where a function's frame is: slots at off[id] from fp, the caller's ra and fp in the
      sixteen bytes below fp, whose contents saved shows. */
  datatype Layout = Layout(fp: int, sp: int, off: map<Id, int>, ty: map<Id, Type>, globals: map<int, int>, saved: Memory, callees: Callees)

  /** The values that are defined, the memory that programs can address (arrays and globals), and the calls so far. */
  datatype IrState = IrState(env: map<Id, int>, mem: Memory, trace: Trace)

  predicate SlotsApart(off: map<Id, int>, ty: map<Id, Type>, i: Id, j: Id)
    requires i in off && j in off && i in ty && j in ty
  {
    off[i] + Size(ty[i]) <= off[j] || off[j] + Size(ty[j]) <= off[i]
  }

  /** The slots lie apart from each other, below the saved pair, above sp; all addresses have 64 bits. */
  ghost predicate LayoutOk(l: Layout) {
    && -TWO_63 <= l.sp <= l.fp - 16 && l.fp < TWO_63 && l.fp - l.sp < TWO_31
    && (forall g | g in l.globals :: -TWO_63 <= l.globals[g] < TWO_63)
    && (forall i | i in l.off :: i in l.ty && l.sp <= l.fp + l.off[i] && l.off[i] + Size(l.ty[i]) <= -16)
    && (forall i, j | i in l.off && j in l.off && i != j :: SlotsApart(l.off, l.ty, i, j))
  }

  /** Addresses that belong to the frame itself, slots and the saved pair, and those below it, for the frames of callees. */
  ghost predicate Private(l: Layout, a: int) {
    || l.fp - 16 <= a < l.fp
    || l.callees.stackEnd <= a < l.sp
    || exists i :: i in l.off && i in l.ty && l.fp + l.off[i] <= a < l.fp + l.off[i] + Size(l.ty[i])
  }

  /** A register that holds v: bit 0 counts for an i1, all of it for the others. */
  predicate Represents(t: Type, w: int, v: int) {
    && -TWO_63 <= w < TWO_63
    && match t
       case I1 => w % 2 == v
       case I32 => w == v && -TWO_31 <= v < TWO_31
       case Ptr => w == v
  }

  /** What a load of type t finds. */
  function LoadValue(m: Memory, t: Type, a: int): int {
    match t
    case I1 => LoadBytes(m, a, 1) % 2
    case I32 => S32(LoadBytes(m, a, 4))
    case Ptr => S64(LoadBytes(m, a, 8))
  }

  ghost predicate Agree(l: Layout, s: IrState, st: State) {
    && Get(st.regs, Fp) == l.fp && Get(st.regs, Sp) == l.sp && st.globals == l.globals && st.callees == l.callees && st.trace == s.trace
    && (forall i | i in s.env :: i in l.off && i in l.ty && LoadValue(st.mem, l.ty[i], l.fp + l.off[i]) == s.env[i])
    && (forall a | !Private(l, a) :: ByteAt(st.mem, a) == ByteAt(s.mem, a))
    && (forall a | l.fp - 16 <= a < l.fp :: ByteAt(st.mem, a) == ByteAt(l.saved, a))
  }

  /** The operand is defined. */
  ghost predicate Known(l: Layout, s: IrState, v: Operand) {
    match v
    case Int(c) => -TWO_31 <= c < TWO_31
    case Global(g) => g in l.globals
    case Var(id) => id in s.env && id in l.ty
  }

  predicate IsSet(s: IrState, v: Operand) {
    v.Var? ==> v.id in s.env
  }

  /** An operand of that type, defined or not. */
  predicate HasType(l: Layout, v: Operand, t: Type) {
    match v
    case Int(c) => -TWO_31 <= c < TWO_31 && t == I32
    case Global(g) => g in l.globals && t == Ptr
    case Var(id) => id in l.off && id in l.ty && l.ty[id] == t
  }

  ghost function TypeOf(l: Layout, v: Operand): Type {
    match v
    case Int(_) => I32
    case Global(_) => Ptr
    case Var(id) => if id in l.ty then l.ty[id] else I32
  }

  ghost function Value(l: Layout, s: IrState, v: Operand): int {
    match v
    case Int(c) => c
    case Global(g) => if g in l.globals then l.globals[g] else 0
    case Var(id) => if id in s.env then s.env[id] else 0
  }

  lemma LoadValueSame(m: Memory, m': Memory, t: Type, a: int)
    requires forall b | a <= b < a + Size(t) :: ByteAt(m', b) == ByteAt(m, b)
    ensures LoadValue(m', t, a) == LoadValue(m, t, a)
  {
    LoadSame(m, m', a, Size(t));
  }

  lemma LoadValueStored(m: Memory, t: Type, a: int, w: int, v: int)
    requires Represents(t, w, v)
    ensures LoadValue(StoreBytes(m, a, Size(t), w), t, a) == v
  {
    hide LoadBytes, StoreBytes, Pow256;
    LoadStored(m, a, Size(t), w);
    Powers();
    match t
    case I1 => ModSplit(w, 2, 128);
    case _ =>
  }

  /** Storing a value into its slot. */
  lemma StoreSlot(l: Layout, s: IrState, st: State, id: Id, w: int, v: int)
    requires LayoutOk(l) && Agree(l, s, st) && id in l.off
    requires Represents(l.ty[id], w, v)
    ensures Agree(l, s.(env := s.env[id := v]), st.(mem := StoreBytes(st.mem, l.fp + l.off[id], Size(l.ty[id]), w)))
  {
    hide LoadValue, LoadBytes, StoreBytes, Represents, ByteAt;
    var a, n := l.fp + l.off[id], Size(l.ty[id]);
    var m' := StoreBytes(st.mem, a, n, w);
    forall b | b < a || a + n <= b ensures ByteAt(m', b) == ByteAt(st.mem, b) {
      StoreApart(st.mem, a, n, w, b);
    }
    LoadValueStored(st.mem, l.ty[id], a, w, v);
    forall i | i in s.env && i != id ensures LoadValue(m', l.ty[i], l.fp + l.off[i]) == s.env[i] {
      assert SlotsApart(l.off, l.ty, i, id);
      LoadValueSame(st.mem, m', l.ty[i], l.fp + l.off[i]);
    }
  }

  /** A machine load brings what a load means. */
  lemma LoadRepresents(m: Memory, t: Type, a: int)
    ensures Represents(t, LoadResult(m, WidthOf(t), a), LoadValue(m, t, a))
  {
    hide LoadBytes, ByteAt;
  }

  lemma AgreeFrame(l: Layout, s: IrState, st: State)
    requires Agree(l, s, st)
    ensures Get(st.regs, Fp) == l.fp && Get(st.regs, Sp) == l.sp
  {
  }

  lemma SlotAddress(l: Layout, id: Id)
    requires LayoutOk(l) && id in l.off
    ensures S64(l.fp + l.off[id]) == l.fp + l.off[id]
  {
  }

  /** Reading a value from its slot. */
  lemma LoadSlot(l: Layout, s: IrState, st: State, id: Id)
    requires LayoutOk(l) && Agree(l, s, st) && id in s.env
    ensures id in l.off && S64(l.fp + l.off[id]) == l.fp + l.off[id]
    ensures Represents(l.ty[id], LoadResult(st.mem, WidthOf(l.ty[id]), l.fp + l.off[id]), s.env[id])
  {
    hide LoadBytes, ByteAt, Private, LoadValue, LoadResult, Represents, LayoutOk, S64;
    SlotAddress(l, id);
    LoadRepresents(st.mem, l.ty[id], l.fp + l.off[id]);
  }

  ghost predicate SameSurroundings(st: State, st': State) {
    st'.globals == st.globals && st'.callees == st.callees && st'.trace == st.trace
  }

  /** Registers other than fp and sp do not matter. */
  lemma AgreeRegs(l: Layout, s: IrState, st: State, st': State)
    requires Agree(l, s, st) && st'.mem == st.mem && SameSurroundings(st, st')
    requires Get(st'.regs, Fp) == Get(st.regs, Fp) && Get(st'.regs, Sp) == Get(st.regs, Sp)
    ensures Agree(l, s, st')
  {
  }

  ghost predicate PublicRange(l: Layout, a: int, n: nat) {
    -TWO_63 <= a && a + n <= TWO_63 && forall b | a <= b < a + n :: !Private(l, b)
  }

  /** A program's own load sees what the machine sees. */
  lemma LoadPublic(l: Layout, s: IrState, st: State, t: Type, a: int)
    requires Agree(l, s, st) && PublicRange(l, a, Size(t))
    ensures LoadValue(st.mem, t, a) == LoadValue(s.mem, t, a)
  {
    LoadValueSame(s.mem, st.mem, t, a);
  }

  lemma {:induction false} StoreBoth(m: Memory, m': Memory, a: int, n: nat, w: int, b: int)
    requires b < a || a + n <= b ==> ByteAt(m', b) == ByteAt(m, b)
    ensures ByteAt(StoreBytes(m', a, n, w), b) == ByteAt(StoreBytes(m, a, n, w), b)
    decreases n
  {
    if n > 0 {
      if a == b {
        StoreApart(m[a := w % 256], a + 1, n - 1, w / 256, b);
        StoreApart(m'[a := w % 256], a + 1, n - 1, w / 256, b);
      } else {
        StoreBoth(m[a := w % 256], m'[a := w % 256], a + 1, n - 1, w / 256, b);
      }
    }
  }

  /** A program's own store outside the frame's private addresses. */
  lemma StorePublic(l: Layout, s: IrState, st: State, n: nat, a: int, w: int)
    requires Agree(l, s, st) && PublicRange(l, a, n)
    ensures Agree(l, s.(mem := StoreBytes(s.mem, a, n, w)), st.(mem := StoreBytes(st.mem, a, n, w)))
  {
    hide LoadValue, LoadBytes, StoreBytes, Represents, ByteAt;
    var m' := StoreBytes(st.mem, a, n, w);
    forall b | Private(l, b) ensures ByteAt(m', b) == ByteAt(st.mem, b) {
      StoreApart(st.mem, a, n, w, b);
    }
    forall b | !Private(l, b) ensures ByteAt(m', b) == ByteAt(StoreBytes(s.mem, a, n, w), b) {
      StoreBoth(s.mem, st.mem, a, n, w, b);
    }
    forall i | i in s.env ensures LoadValue(m', l.ty[i], l.fp + l.off[i]) == s.env[i] {
      LoadValueSame(st.mem, m', l.ty[i], l.fp + l.off[i]);
    }
  }

  // ----- values that are not defined -----

  lemma FewerAgree(l: Layout, s: IrState, s': IrState, st: State)
    requires Agree(l, s, st) && s'.mem == s.mem && s'.trace == s.trace && forall i | i in s'.env :: i in s.env && s'.env[i] == s.env[i]
    ensures Agree(l, s', st)
  {
  }

  /** Slots of values that are not defined have some contents too: the state with those. */
  ghost function Completed(l: Layout, s: IrState, st: State): IrState {
    s.(env := map i | i in l.off && i in l.ty :: LoadValue(st.mem, l.ty[i], l.fp + l.off[i]))
  }

  lemma CompletedAgrees(l: Layout, s: IrState, st: State)
    requires LayoutOk(l) && Agree(l, s, st)
    ensures Agree(l, Completed(l, s, st), st)
  {
    hide LoadValue, ByteAt, Private;
  }

  lemma CompletedValue(l: Layout, s: IrState, st: State, v: Operand, t: Type)
    requires Agree(l, s, st) && HasType(l, v, t)
    ensures Known(l, Completed(l, s, st), v) && TypeOf(l, v) == t
    ensures IsSet(s, v) ==> Value(l, Completed(l, s, st), v) == Value(l, s, v)
  {
    hide LoadValue, ByteAt, Private;
  }

  /** The state in which id has the value x, or none. */
  ghost function Assign(s: IrState, id: Id, known: bool, x: int): IrState {
    s.(env := if known then s.env[id := x] else s.env - {id})
  }

  /** Something is computed in any case; it is the value if that is known. */
  lemma AssignAgrees(l: Layout, s: IrState, st: State, id: Id, known: bool, x: int, y: int, st': State)
    requires Agree(l, s, st) && (known ==> x == y)
    requires var c := Completed(l, s, st); Agree(l, c.(env := c.env[id := y]), st')
    ensures Agree(l, Assign(s, id, known, x), st')
  {
    hide LoadValue, ByteAt, Private;
  }
}
