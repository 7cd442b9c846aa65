/** The LoongArch instructions that the code generator emits (LoongArch Reference
    Manual, Volume 1, sections 2.2.1 to 2.2.5): 64-bit registers as signed
    integers, memory as bytes. Called functions are part of the surroundings. */
module LoongArch {
  const TWO_31: int := 0x8000_0000
  const TWO_32: int := 0x1_0000_0000
  const TWO_63: int := 0x8000_0000_0000_0000
  const TWO_64: int := 0x1_0000_0000_0000_0000

  /** The signed value of the low 32, 64 or 8 bits. */
  function S32(x: int): (r: int)
    ensures -TWO_31 <= r < TWO_31 && (r - x) % TWO_32 == 0
    ensures -TWO_31 <= x < TWO_31 ==> r == x
  {
    var m := x % TWO_32;
    if m < TWO_31 then m else m - TWO_32
  }

  function S64(x: int): (r: int)
    ensures -TWO_63 <= r < TWO_63 && (r - x) % TWO_64 == 0
    ensures -TWO_63 <= x < TWO_63 ==> r == x
  {
    var m := x % TWO_64;
    if m < TWO_63 then m else m - TWO_64
  }

  function S8(x: int): int {
    var m := x % 256;
    if m < 128 then m else m - 256
  }

  // ----- memory -----

  type Memory = map<int, int>

  function ByteAt(m: Memory, a: int): (r: int)
    ensures 0 <= r < 256
  {
    if a in m then m[a] % 256 else 0
  }

  /** n bytes from address a, little-endian and unsigned. */
  function LoadBytes(m: Memory, a: int, n: nat): nat
    decreases n
  {
    if n == 0 then 0 else ByteAt(m, a) + 256 * LoadBytes(m, a + 1, n - 1)
  }

  function StoreBytes(m: Memory, a: int, n: nat, v: int): Memory
    decreases n
  {
    if n == 0 then m else StoreBytes(m[a := v % 256], a + 1, n - 1, v / 256)
  }

  function Pow256(n: nat): (r: nat)
    ensures r > 0
  {
    if n == 0 then 1 else 256 * Pow256(n - 1)
  }

  lemma {:induction false} StoreApart(m: Memory, a: int, n: nat, v: int, b: int)
    requires b < a || a + n <= b
    ensures ByteAt(StoreBytes(m, a, n, v), b) == ByteAt(m, b)
    decreases n
  {
    if n > 0 {
      StoreApart(m[a := v % 256], a + 1, n - 1, v / 256, b);
    }
  }

  lemma {:induction false} LoadSame(m: Memory, m': Memory, a: int, n: nat)
    requires forall b | a <= b < a + n :: ByteAt(m', b) == ByteAt(m, b)
    ensures LoadBytes(m', a, n) == LoadBytes(m, a, n)
    decreases n
  {
    if n > 0 {
      LoadSame(m, m', a + 1, n - 1);
    }
  }

  lemma MulBound(d: int, big: int)
    requires -big < d * big < big
    ensures d == 0
  {
    assert d >= 1 ==> d * big >= big;
    assert d <= -1 ==> d * big <= -1 * big;
  }

  lemma ModUnique(v: int, k: int, big: nat, t: int)
    requires 0 <= t < big && v == k * big + t
    ensures v % big == t
  {
    var q := v / big;
    assert v == q * big + v % big;
    assert (k - q) * big == v % big - t;
    MulBound(k - q, big);
  }

  lemma MulSpread(c: int, k: int, p: int, s: int)
    ensures c * (k * p + s) == k * (c * p) + c * s
  {
    assert c * (k * p + s) == c * (k * p) + c * s;
    assert c * (k * p) == k * (c * p);
  }

  lemma MulLess(c: nat, s: int, p: int)
    requires s < p
    ensures c * s + c <= c * p
  {
    assert c * (s + 1) == c * s + c;
    assert c * (p - (s + 1)) >= 0;
    assert c * (p - (s + 1)) == c * p - c * (s + 1);
  }

  lemma ModSplit(v: int, c: nat, p: nat)
    requires c > 0 && p > 0
    ensures c * p > 0 && v % (c * p) == v % c + c * ((v / c) % p)
  {
    var q, r := v / c, v % c;
    var s, k := q % p, q / p;
    assert q == k * p + s;
    assert v == c * q + r;
    MulSpread(c, k, p, s);
    MulLess(c, s, p);
    ModUnique(v, k, c * p, r + c * s);
  }

  /** What is stored is read back, up to the width. */
  lemma {:induction false} LoadStored(m: Memory, a: int, n: nat, v: int)
    ensures LoadBytes(StoreBytes(m, a, n, v), a, n) == v % Pow256(n)
    decreases n
  {
    if n > 0 {
      var m1 := m[a := v % 256];
      LoadStored(m1, a + 1, n - 1, v / 256);
      StoreApart(m1, a + 1, n - 1, v / 256, a);
      assert ByteAt(StoreBytes(m, a, n, v), a) == v % 256;
      NextByte(v, n);
    }
  }

  lemma NextByte(v: int, n: nat)
    requires n > 0
    ensures v % 256 + 256 * ((v / 256) % Pow256(n - 1)) == v % Pow256(n)
  {
    ModSplit(v, 256, Pow256(n - 1));
  }

  lemma Powers()
    ensures Pow256(1) == 256 && Pow256(4) == TWO_32 && Pow256(8) == TWO_64
  {
    assert Pow256(2) == 256 * Pow256(1);
    assert Pow256(3) == 256 * Pow256(2);
    assert Pow256(5) == 256 * Pow256(4);
    assert Pow256(6) == 256 * Pow256(5);
    assert Pow256(7) == 256 * Pow256(6);
  }

  // ----- bitwise or, on the low n bits -----

  function OrBits(x: int, y: int, n: nat): nat
    decreases n
  {
    if n == 0 then 0
    else (if x % 2 == 0 && y % 2 == 0 then 0 else 1) + 2 * OrBits(x / 2, y / 2, n - 1)
  }

  function Pow2(n: nat): (r: nat)
    ensures r > 0
  {
    if n == 0 then 1 else 2 * Pow2(n - 1)
  }

  lemma {:induction false} OrZero(x: int, n: nat)
    ensures OrBits(x, 0, n) == x % Pow2(n)
    decreases n
  {
    if n > 0 {
      OrZero(x / 2, n - 1);
      ModSplit(x, 2, Pow2(n - 1));
    }
  }

  /** Or of a number whose low k bits are zero with a number of k bits is their sum. */
  lemma {:induction false} OrIsSum(h: int, y: nat, k: nat, n: nat)
    requires k <= n && y < Pow2(k)
    ensures OrBits(h * Pow2(k), y, n) == (h * Pow2(k) + y) % Pow2(n)
    decreases n
  {
    var x := h * Pow2(k);
    if k == 0 {
      OrZero(x, n);
    } else {
      var half := h * Pow2(k - 1);
      assert x == 2 * half;
      OrIsSum(h, y / 2, k - 1, n - 1);
      assert (x + y) / 2 == half + y / 2 && (x + y) % 2 == y % 2;
      ModSplit(x + y, 2, Pow2(n - 1));
    }
  }

  lemma {:induction false} OrOfBits(x: int, y: int, n: nat)
    requires n > 0 && 0 <= x <= 1 && 0 <= y <= 1
    ensures OrBits(x, y, n) == if x == 0 && y == 0 then 0 else 1
  {
    OrZero(0, n - 1);
  }

  lemma Pow2Small()
    ensures Pow2(12) == 4096
  {
    assert Pow2(4) == 16 by {
      assert Pow2(2) == 4;
    }
    assert Pow2(6) == 64 && Pow2(8) == 256 && Pow2(10) == 1024;
  }

  lemma Pow2Double(n: nat, v: int)
    requires Pow2(n) == v
    ensures Pow2(2 * n) == v * v
  {
    Pow2Add(n, n);
  }

  lemma Pow2Word()
    ensures Pow2(64) == TWO_64
  {
    assert Pow2(4) == 16 by {
      assert Pow2(2) == 4;
    }
    Pow2Double(4, 16);
    Pow2Double(8, 256);
    Pow2Double(16, 0x1_0000);
    Pow2Double(32, TWO_32);
  }

  lemma {:induction false} Pow2Add(a: nat, b: nat)
    ensures Pow2(a + b) == Pow2(a) * Pow2(b)
    decreases b
  {
    if b > 0 {
      Pow2Add(a, b - 1);
      assert Pow2(a) * (2 * Pow2(b - 1)) == 2 * (Pow2(a) * Pow2(b - 1));
    }
  }

  // ----- registers and instructions -----

  datatype Reg = Zero | Ra | Sp | Fp | A(n: nat) | T(n: nat)

  type Regs = map<Reg, int>

  datatype Width = Byte | Word | Double

  function Bytes(w: Width): nat {
    match w
    case Byte => 1
    case Word => 4
    case Double => 8
  }

  datatype AluOp = AddW | SubW | MulW | DivW | AddD | SubD | Slt | Or | Nor

  datatype Asm =
    | AddiW(rd: Reg, rj: Reg, imm: int)
    | AddiD(rd: Reg, rj: Reg, imm: int)
    | Lu12iW(rd: Reg, imm: int)
    | Ori(rd: Reg, rj: Reg, imm: int)
    | Lu32iD(rd: Reg, imm: int)
    | Lu52iD(rd: Reg, rj: Reg, imm: int)
    | Alu(op: AluOp, rd: Reg, rj: Reg, rk: Reg)
    | BstrpickW(rd: Reg, rj: Reg, msb: nat)
    | BstrpickD(rd: Reg, rj: Reg, msb: nat)
    | Ld(w: Width, rd: Reg, rj: Reg, imm: int)
    | St(w: Width, rd: Reg, rj: Reg, imm: int)
    | LaLocal(rd: Reg, global: int)
    | B(target: int)
    | Bnez(rj: Reg, target: int)
    | Jr(rj: Reg)
    | Bl(callee: int)
    | Label(name: int)

  /** A call as the callee sees it. */
  datatype CallRecord = CallRecord(callee: int, args: seq<int>)

  type Trace = seq<CallRecord>

  /** The functions that are called. What their code does with registers and memory (run), and what they are declared
      to do: the number of arguments, whether there is a result, the result and the memory they leave. All may depend on
      the calls before. Their frames lie between stackEnd and the caller's stack pointer. */
  datatype Callees = Callees(
    run: (int, Regs, Memory, Trace) -> (Regs, Memory),
    arity: int -> nat,
    isVoid: int -> bool,
    val: (int, seq<int>, Memory, Trace) -> int,
    effect: (int, seq<int>, Memory, Trace) -> Memory,
    stackEnd: int)

  /** Registers, memory, where the globals are, the functions that can be called, and the calls so far. */
  datatype State = State(regs: Regs, mem: Memory, globals: map<int, int>, callees: Callees, trace: Trace)

  function Get(regs: Regs, r: Reg): int {
    if r.Zero? || r !in regs then 0 else regs[r]
  }

  /** div.w, truncating; by zero it may give anything, here zero. */
  function DivTrunc(a: int, b: int): int {
    if b == 0 then 0
    else if a >= 0 then (if b > 0 then a / b else -(a / -b))
    else (if b > 0 then -(-a / b) else -a / -b)
  }

  function AluResult(op: AluOp, x: int, y: int): int {
    match op
    case AddW => S32(x + y)
    case SubW => S32(x - y)
    case MulW => S32(S32(x) * S32(y))
    case DivW => S32(DivTrunc(S32(x), S32(y)))
    case AddD => S64(x + y)
    case SubD => S64(x - y)
    case Slt => if x < y then 1 else 0
    case Or => S64(OrBits(x, y, 64))
    case Nor => S64(-1 - OrBits(x, y, 64))
  }

  function LoadResult(m: Memory, w: Width, a: int): int {
    match w
    case Byte => S8(LoadBytes(m, a, 1))
    case Word => S32(LoadBytes(m, a, 4))
    case Double => S64(LoadBytes(m, a, 8))
  }

  /** The register result of an instruction that has one. */
  function Result(st: State, i: Asm): int
    requires i.AddiW? || i.AddiD? || i.Lu12iW? || i.Ori? || i.Lu32iD? || i.Lu52iD? || i.Alu? || i.BstrpickW? || i.BstrpickD? || i.Ld? || i.LaLocal?
  {
    match i
    case AddiW(_, rj, imm) => S32(Get(st.regs, rj) + imm)
    case AddiD(_, rj, imm) => S64(Get(st.regs, rj) + imm)
    case Lu12iW(_, imm) => S32(imm * 4096)
    case Ori(_, rj, imm) => S64(OrBits(Get(st.regs, rj), imm, 64))
    case Lu32iD(rd, imm) => S64(imm * TWO_32 + Get(st.regs, rd) % TWO_32)
    case Lu52iD(_, rj, imm) => S64(imm * 0x10_0000_0000_0000 + Get(st.regs, rj) % 0x10_0000_0000_0000)
    case Alu(op, _, rj, rk) => AluResult(op, Get(st.regs, rj), Get(st.regs, rk))
    case BstrpickW(_, rj, msb) => S32(Get(st.regs, rj) % Pow2(msb + 1))
    case BstrpickD(_, rj, msb) => S64(Get(st.regs, rj) % Pow2(msb + 1))
    case Ld(w, _, rj, imm) => LoadResult(st.mem, w, S64(Get(st.regs, rj) + imm))
    case LaLocal(_, g) => if g in st.globals then st.globals[g] else 0
  }

  /** The first n argument registers. */
  function ArgValues(regs: Regs, n: nat): (r: seq<int>)
    ensures |r| == n && forall i | 0 <= i < n :: r[i] == Get(regs, A(i))
  {
    seq(n, i requires 0 <= i < n => Get(regs, A(i)))
  }

  /** A call and the callee's return. */
  function AfterCall(st: State, callee: int): State {
    var (regs, mem) := st.callees.run(callee, st.regs, st.mem, st.trace);
    st.(regs := regs, mem := mem, trace := st.trace + [CallRecord(callee, ArgValues(st.regs, st.callees.arity(callee)))])
  }

  /** One instruction; branches, jumps and labels leave registers and memory alone. */
  function Exec1(st: State, i: Asm): State {
    match i
    case St(w, rd, rj, imm) => st.(mem := StoreBytes(st.mem, S64(Get(st.regs, rj) + imm), Bytes(w), Get(st.regs, rd)))
    case B(_) => st
    case Bnez(_, _) => st
    case Jr(_) => st
    case Bl(callee) => AfterCall(st, callee)
    case Label(_) => st
    case _ => if i.rd.Zero? then st else st.(regs := st.regs[i.rd := Result(st, i)])
  }

  function Exec(st: State, code: seq<Asm>): State
    decreases |code|
  {
    if code == [] then st else Exec1(Exec(st, code[..|code| - 1]), code[|code| - 1])
  }

  lemma {:induction false} ExecAppend(st: State, a: seq<Asm>, b: seq<Asm>)
    ensures Exec(st, a + b) == Exec(Exec(st, a), b)
    decreases |b|
  {
    if b == [] {
      assert a + b == a;
    } else {
      ExecAppend(st, a, b[..|b| - 1]);
      assert (a + b)[..|a + b| - 1] == a + b[..|b| - 1];
    }
  }

  predicate Imm12(x: int) {
    -0x800 <= x <= 0x7FF
  }

  /** The immediate fits its field, so that the instruction can be assembled. */
  predicate Encodable(i: Asm) {
    match i
    case AddiW(_, _, imm) => Imm12(imm)
    case AddiD(_, _, imm) => Imm12(imm)
    case Lu12iW(_, imm) => -0x80000 <= imm < 0x80000
    case Ori(_, _, imm) => 0 <= imm < 0x1000
    case Lu32iD(_, imm) => -0x80000 <= imm < 0x80000
    case Lu52iD(_, _, imm) => Imm12(imm)
    case BstrpickW(_, _, msb) => msb < 32
    case BstrpickD(_, _, msb) => msb < 64
    case Ld(_, _, _, imm) => Imm12(imm)
    case St(_, _, _, imm) => Imm12(imm)
    case _ => true
  }

  predicate AllEncodable(code: seq<Asm>) {
    forall i | i in code :: Encodable(i)
  }
}
