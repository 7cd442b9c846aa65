/** Functions without slots as the code generator sees them: with types, and with a meaning of
    operations that is the machine's. What the emitted text does is what such a function does. */
module Lowering {
  import opened Common
  import opened Cfg
  import Ir
  import opened LoongArch
  import opened Frame
  import opened LowIr
  import opened Allocation
  import opened PhiCopies
  import opened Emission
  import opened MachineRun

  /** Where the array of each alloca lies: the value that has its address, and its size. */
  type Sites = map<int, (Id, nat)>

  // ----- the same function -----

  /** Arguments beyond those of the function are addresses of globals. */
  ghost predicate OperandIs(h: Function, v: Ir.Val, o: Operand) {
    match v
    case Const(c) => o == Int(c)
    case Arg(n) => if 0 <= n < |h.args| then o == Var(h.args[n]) else o == Global(n - |h.args|)
    case Res(id) => o == Var(id) && id !in h.args
  }

  function BinaryOf(op: Ir.Opcode): Option<BinaryOp> {
    match op
    case Add => Some(LowIr.Add)
    case Sub => Some(LowIr.Sub)
    case Mul => Some(LowIr.Mul)
    case Sdiv => Some(LowIr.Sdiv)
    case _ => None
  }

  /** One instruction: elements have four bytes, and the first index of an array is 0. */
  ghost predicate InstIs(h: Function, sites: Sites, instr: Ir.Instr, inst: Inst) {
    instr.Op? &&
    match inst
    case Binary(id, op, a, b) => id == instr.id && BinaryOf(instr.op) == Some(op) && |instr.args| == 2 && OperandIs(h, instr.args[0], a) && OperandIs(h, instr.args[1], b)
    case Compare(id, cmp, a, b) => id == instr.id && instr.op == Ir.Icmp(cmp) && |instr.args| == 2 && OperandIs(h, instr.args[0], a) && OperandIs(h, instr.args[1], b)
    case Zext(id, a) => id == instr.id && instr.op == Ir.Zext && |instr.args| == 1 && OperandIs(h, instr.args[0], a)
    case GepElement(id, base, i, size) =>
      id == instr.id && instr.op == Ir.Gep && |instr.args| == 2 && size == 4 && OperandIs(h, instr.args[0], base) && OperandIs(h, instr.args[1], i)
    case GepArray(id, base, i, j, _, size) =>
      id == instr.id && instr.op == Ir.Gep && |instr.args| == 3 && size == 4 && OperandIs(h, instr.args[0], base) && i == Int(0) && OperandIs(h, instr.args[2], j)
    case Load(id, p) => id == instr.id && instr.op == Ir.LoadPtr && |instr.args| == 1 && OperandIs(h, instr.args[0], p) && id in h.ty && h.ty[id] == I32
    case Store(v, p) =>
      && instr.op == Ir.StorePtr && |instr.args| == 2 && OperandIs(h, instr.args[0], v) && OperandIs(h, instr.args[1], p)
      && match v { case Int(_) => true case Global(_) => false case Var(id) => id in h.ty && h.ty[id] == I32 }
    case Alloca(id, size) => id == instr.id && instr.op.Alloca? && instr.op.site in sites && sites[instr.op.site] == (id, size)
    case Call(result, callee, args) => (result.Some? ==> result.value == instr.id) && instr.op == Ir.Call(callee) && OperandsAre(h, instr.args, args)
  }

  ghost predicate OperandsAre(h: Function, vs: seq<Ir.Val>, os: seq<Operand>) {
    |os| == |vs| && forall i | 0 <= i < |vs| :: OperandIs(h, vs[i], os[i])
  }

  ghost predicate PairsAre(h: Function, pairs: seq<(Ir.Val, Block)>, pairs': seq<(Operand, Block)>) {
    |pairs'| == |pairs| && forall i | 0 <= i < |pairs| :: pairs'[i].1 == pairs[i].1 && OperandIs(h, pairs[i].0, pairs'[i].0)
  }

  ghost predicate PhisAre(h: Function, phis: seq<Ir.Phi>, phis': seq<Phi>) {
    |phis'| == |phis| && forall i | 0 <= i < |phis| :: phis'[i].id == phis[i].id && PairsAre(h, phis[i].pairs, phis'[i].pairs)
  }

  ghost predicate TermIs(h: Function, t: Ir.Term, t': Term) {
    match t
    case Br(b) => t' == Br(b)
    case CondBr(v, b, c) => t'.CondBr? && t'.ifTrue == b && t'.ifFalse == c && OperandIs(h, v, t'.cond)
    case Ret(v) => t'.Ret? && (v.Some? <==> t'.val.Some?) && (v.Some? ==> OperandIs(h, v.value, t'.val.value))
  }

  ghost predicate BlockIs(f: Ir.Func, h: Function, sites: Sites, b: Block)
    requires HasBlocks(h) && b in h.blocks
  {
    && b in f.body && b in f.term && b in f.phis && b in h.phis && PhisAre(h, f.phis[b], h.phis[b]) && TermIs(h, f.term[b], h.term[b])
    && |h.body[b]| == |f.body[b]| && forall i | 0 <= i < |f.body[b]| :: InstIs(h, sites, f.body[b][i], h.body[b][i])
  }

  /** What a store or a call without result defines in name only. */
  ghost predicate NameOnly(f: Ir.Func, h: Function, id: Id) {
    exists b, i :: b in f.body && b in h.body && 0 <= i < |f.body[b]| && i < |h.body[b]|
                   && f.body[b][i].Op? && f.body[b][i].id == id && Defined(h.body[b][i]).None?
  }

  /** h is f with types; values of instructions that have one are not arguments, and not those of stores and calls without result. */
  ghost predicate Lowered(f: Ir.Func, h: Function, sites: Sites) {
    && HasBlocks(h) && ControlOk(h) && h.blocks != [] && h.blocks[0] == f.graph.entry && (forall b | b in h.blocks :: BlockIs(f, h, sites, b))
    && (forall b, i | b in h.blocks && 0 <= i < |h.body[b]| && Defined(h.body[b][i]).Some? :: FreshValue(f, h, Defined(h.body[b][i]).value))
    && (forall b, i | b in h.blocks && b in h.phis && 0 <= i < |h.phis[b]| :: FreshValue(f, h, h.phis[b][i].id))
    && (forall i, j | 0 <= i < j < |h.args| :: h.args[i] != h.args[j]) && (forall id | id in h.args :: !NameOnly(f, h, id))
  }

  ghost predicate FreshValue(f: Ir.Func, h: Function, id: Id) {
    id !in h.args && !NameOnly(f, h, id)
  }

  // ----- the machine's meaning of operations -----

  ghost function PureValue(l: Layout, sites: Sites, op: Ir.Opcode, vs: seq<int>): int {
    match op
    case Icmp(cmp) => if |vs| == 2 then Bit(Holds(cmp, vs[0], vs[1])) else 0
    case Zext => if |vs| == 1 then vs[0] else 0
    case Gep => if |vs| == 2 then S64(vs[0] + vs[1] * 4) else if |vs| == 3 then S64(vs[0] + vs[2] * 4) else 0
    case Alloca(site) => if site in sites && sites[site].0 in l.off then l.fp + l.off[sites[site].0] - sites[site].1 else 0
    case _ => if BinaryOf(op).Some? && |vs| == 2 then BinaryValue(BinaryOf(op).value, vs[0], vs[1]) else 0
  }

  /** What a function works on besides its values: the memory, and the calls so far. */
  datatype Outer = Outer(mem: Memory, trace: Trace)

  /** Stores and calls leave their marks. */
  ghost function OuterStep(k: Callees, o: Outer, e: Ir.Event): Outer {
    match e.op
    case StorePtr => if |e.args| == 2 then o.(mem := StoreBytes(o.mem, e.args[1], 4, e.args[0])) else o
    case Call(c) => Outer(k.effect(c, e.args, o.mem, o.trace), o.trace + [CallRecord(c, e.args)])
    case _ => o
  }

  ghost function After(k: Callees, o: Outer, events: seq<Ir.Event>): Outer {
    if events == [] then o else OuterStep(k, After(k, o, events[..|events| - 1]), events[|events| - 1])
  }

  /** What loads find and calls return. */
  ghost function OutsideValue(k: Callees, o: Outer, op: Ir.Opcode, vs: seq<int>): int {
    match op
    case LoadPtr => if |vs| == 1 then LoadValue(o.mem, I32, vs[0]) else 0
    case Call(c) => k.val(c, vs, o.mem, o.trace)
    case _ => 0
  }

  ghost function SemOf(l: Layout, sites: Sites, o: Outer): Ir.Sem {
    Ir.Sem((op, vs) => PureValue(l, sites, op, vs), (events, op, vs) => OutsideValue(l.callees, After(l.callees, o, events), op, vs))
  }

  // ----- states -----

  /** The values of the arguments, then the addresses of the globals. */
  ghost predicate ArgsAre(l: Layout, h: Function, vals: seq<int>, args: seq<int>) {
    && |vals| == |h.args| <= |args| && args[..|vals|] == vals
    && forall g :: (g in l.globals <==> 0 <= g < |args| - |vals|) && (g in l.globals ==> args[|vals| + g] == l.globals[g])
  }

  ghost predicate Related(l: Layout, f: Ir.Func, h: Function, args: seq<int>, o: Outer, s: IrState, r: Ir.Regs) {
    && (forall n | 0 <= n < |h.args| && h.args[n] in s.env :: n < |args| && s.env[h.args[n]] == args[n])
    && (forall id | id in s.env && id !in h.args :: id in r.env && r.env[id] == s.env[id] && !NameOnly(f, h, id))
    && Outer(s.mem, s.trace) == After(l.callees, o, r.events)
  }

  /** The function, its typed form, and where it runs. */
  datatype Setup = Setup(l: Layout, f: Ir.Func, h: Function, sites: Sites, vals: seq<int>, args: seq<int>, o: Outer)

  ghost predicate SetupOk(u: Setup) {
    Lowered(u.f, u.h, u.sites) && ArgsAre(u.l, u.h, u.vals, u.args) && u.l.ty == u.h.ty
  }

  ghost function Sem(u: Setup): Ir.Sem {
    SemOf(u.l, u.sites, u.o)
  }

  ghost predicate Rel(u: Setup, s: IrState, r: Ir.Regs) {
    Related(u.l, u.f, u.h, u.args, u.o, s, r)
  }

  /** An operand that has a value has the same one in both. */
  lemma OperandSame(u: Setup, s: IrState, r: Ir.Regs, v: Ir.Val, o: Operand)
    requires ArgsAre(u.l, u.h, u.vals, u.args) && Rel(u, s, r) && OperandIs(u.h, v, o) && IsSet(s, o)
    ensures Ir.Eval(u.args, r.env, v) == Value(u.l, s, o)
  {
    hide NameOnly, After;
  }

  lemma OperandsSame(u: Setup, s: IrState, r: Ir.Regs, vs: seq<Ir.Val>, os: seq<Operand>)
    requires ArgsAre(u.l, u.h, u.vals, u.args) && Rel(u, s, r) && OperandsAre(u.h, vs, os) && forall o | o in os :: IsSet(s, o)
    ensures Ir.EvalAll(u.args, r.env, vs) == Values(u.l, s, os)
  {
    hide ArgsAre, Rel, OperandIs, IsSet, Value, Ir.Eval;
    forall i | 0 <= i < |vs| ensures Ir.Eval(u.args, r.env, vs[i]) == Value(u.l, s, os[i]) {
      assert os[i] in os;
      OperandSame(u, s, r, vs[i], os[i]);
    }
  }

  lemma AfterNext(k: Callees, o: Outer, events: seq<Ir.Event>, e: Ir.Event)
    ensures After(k, o, events + [e]) == OuterStep(k, After(k, o, events), e)
  {
    hide OuterStep;
    assert (events + [e])[..|events|] == events;
  }

  /** The same value for id in both, or none in the typed one; the surroundings stay. */
  ghost predicate SameValue(u: Setup, s: IrState, r: Ir.Regs, s': IrState, r': Ir.Regs, id: Id) {
    && s'.mem == s.mem && s'.trace == s.trace && After(u.l.callees, u.o, r'.events) == After(u.l.callees, u.o, r.events)
    && id in r'.env && r'.env == r.env[id := r'.env[id]] && (s'.env == s.env[id := r'.env[id]] || s'.env == s.env - {id})
  }

  /** A pure operation gives the value that the typed instruction assigns, if it assigns one. */
  lemma PureSame(u: Setup, s: IrState, r: Ir.Regs, instr: Ir.Instr, known: bool, x: int)
    requires instr.Op? && Ir.IsPureOp(instr.op) && (known ==> PureValue(u.l, u.sites, instr.op, Ir.EvalAll(u.args, r.env, instr.args)) == x)
    ensures SameValue(u, s, r, Assign(s, instr.id, known, x), Ir.Step(Sem(u), u.args, r, instr), instr.id)
  {
    hide PureValue, After, OutsideValue;
  }

  lemma ArithmeticSame(u: Setup, s: IrState, r: Ir.Regs, instr: Ir.Instr, inst: Inst)
    requires ArgsAre(u.l, u.h, u.vals, u.args) && Rel(u, s, r) && InstIs(u.h, u.sites, instr, inst) && (inst.Binary? || inst.Compare? || inst.Zext?)
    ensures instr.Op? && SameValue(u, s, r, Step(u.l, s, inst), Ir.Step(Sem(u), u.args, r, instr), instr.id)
  {
    hide Rel, OperandIs, S32, Holds, ArgsAre, IsSet, SameValue, Ir.Step, BinaryValue, CompareFits, Value, Ir.Eval;
    var a := if inst.Zext? then inst.src else inst.lhs;
    if IsSet(s, a) {
      OperandSame(u, s, r, instr.args[0], a);
    }
    if !inst.Zext? && IsSet(s, inst.rhs) {
      OperandSame(u, s, r, instr.args[1], inst.rhs);
    }
    match inst
    case Binary(_, op, x, y) => PureSame(u, s, r, instr, IsSet(s, x) && IsSet(s, y), BinaryValue(op, Value(u.l, s, x), Value(u.l, s, y)));
    case Compare(_, cmp, x, y) =>
      PureSame(u, s, r, instr, IsSet(s, x) && IsSet(s, y) && CompareFits(cmp, Value(u.l, s, x), Value(u.l, s, y)), Bit(Holds(cmp, Value(u.l, s, x), Value(u.l, s, y))));
    case Zext(_, v) => PureSame(u, s, r, instr, IsSet(s, v), Value(u.l, s, v));
  }

  lemma AddressSame(u: Setup, s: IrState, r: Ir.Regs, instr: Ir.Instr, inst: Inst)
    requires ArgsAre(u.l, u.h, u.vals, u.args) && Rel(u, s, r) && InstIs(u.h, u.sites, instr, inst) && Safe(u.l, s, inst)
    requires inst.GepElement? || inst.GepArray? || inst.Alloca?
    ensures instr.Op? && SameValue(u, s, r, Step(u.l, s, inst), Ir.Step(Sem(u), u.args, r, instr), instr.id)
  {
    hide Rel, OperandIs, S64, ArgsAre, HasType, SameValue, Ir.Step, OffsetFits, Ir.Eval;
    match inst
    case GepElement(_, base, i, size) =>
      if IsSet(s, base) && IsSet(s, i) {
        OperandSame(u, s, r, instr.args[0], base);
        OperandSame(u, s, r, instr.args[1], i);
      }
      PureSame(u, s, r, instr, IsSet(s, base) && IsSet(s, i) && OffsetFits(Value(u.l, s, i), size), S64(Value(u.l, s, base) + Value(u.l, s, i) * size));
    case GepArray(_, base, i, j, arraySize, size) =>
      if IsSet(s, base) && IsSet(s, j) {
        OperandSame(u, s, r, instr.args[0], base);
        OperandSame(u, s, r, instr.args[2], j);
      }
      PureSame(u, s, r, instr, IsSet(s, base) && IsSet(s, i) && IsSet(s, j) && OffsetFits(Value(u.l, s, i), arraySize) && OffsetFits(Value(u.l, s, j), size),
               S64(Value(u.l, s, base) + Value(u.l, s, i) * arraySize + Value(u.l, s, j) * size));
    case Alloca(_, size) => PureSame(u, s, r, instr, true, if inst.id in u.l.off then u.l.fp + u.l.off[inst.id] - size else 0);
  }

  lemma LoadSame(u: Setup, s: IrState, r: Ir.Regs, instr: Ir.Instr, inst: Inst)
    requires ArgsAre(u.l, u.h, u.vals, u.args) && u.l.ty == u.h.ty && Rel(u, s, r) && InstIs(u.h, u.sites, instr, inst) && Safe(u.l, s, inst) && inst.Load?
    ensures instr.Op? && SameValue(u, s, r, Step(u.l, s, inst), Ir.Step(Sem(u), u.args, r, instr), instr.id)
  {
    hide NameOnly, LoadValue, After, Rel, OperandIs, ArgsAre;
    OperandSame(u, s, r, instr.args[0], inst.ptr);
    AfterNext(u.l.callees, u.o, r.events, Ir.Event(instr.op, Ir.EvalAll(u.args, r.env, instr.args)));
    RelOuter(u, s, r);
  }

  /** A value that the typed instruction computes is what the operation gives. */
  lemma ValueSame(u: Setup, s: IrState, r: Ir.Regs, instr: Ir.Instr, inst: Inst)
    requires SetupOk(u) && Rel(u, s, r) && InstIs(u.h, u.sites, instr, inst) && Safe(u.l, s, inst) && !inst.Store? && !inst.Call?
    ensures instr.Op? && Defined(inst) == Some(instr.id) && SameValue(u, s, r, Step(u.l, s, inst), Ir.Step(Sem(u), u.args, r, instr), instr.id)
  {
    hide Lowered, Rel, OperandIs, ArgsAre, SameValue, Safe, Step, Ir.Step;
    match inst
    case Load(_, _) => LoadSame(u, s, r, instr, inst);
    case Binary(_, _, _, _) => ArithmeticSame(u, s, r, instr, inst);
    case Compare(_, _, _, _) => ArithmeticSame(u, s, r, instr, inst);
    case Zext(_, _) => ArithmeticSame(u, s, r, instr, inst);
    case _ => AddressSame(u, s, r, instr, inst);
  }

  lemma RelOuter(u: Setup, s: IrState, r: Ir.Regs)
    requires Rel(u, s, r)
    ensures Outer(s.mem, s.trace) == After(u.l.callees, u.o, r.events)
  {
    hide After, NameOnly;
  }

  lemma RelDefined(u: Setup, s: IrState, r: Ir.Regs, id: Id, s': IrState, r': Ir.Regs)
    requires Rel(u, s, r) && FreshValue(u.f, u.h, id) && SameValue(u, s, r, s', r', id)
    ensures Rel(u, s', r')
  {
    hide After, NameOnly;
  }

  lemma StoreRel(u: Setup, s: IrState, r: Ir.Regs, instr: Ir.Instr, inst: Inst)
    requires SetupOk(u) && Rel(u, s, r) && InstIs(u.h, u.sites, instr, inst) && Safe(u.l, s, inst) && inst.Store? && NameOnly(u.f, u.h, instr.id)
    ensures Rel(u, Step(u.l, s, inst), Ir.Step(Sem(u), u.args, r, instr))
  {
    hide Lowered, NameOnly, LoadValue, StoreBytes, After, OperandIs;
    var vs := Ir.EvalAll(u.args, r.env, instr.args);
    OperandSame(u, s, r, instr.args[0], inst.val);
    OperandSame(u, s, r, instr.args[1], inst.ptr);
    AfterNext(u.l.callees, u.o, r.events, Ir.Event(instr.op, vs));
  }

  /** A call, with its result if it has one. */
  lemma CallRel(u: Setup, s: IrState, r: Ir.Regs, instr: Ir.Instr, inst: Inst)
    requires SetupOk(u) && Rel(u, s, r) && InstIs(u.h, u.sites, instr, inst) && Safe(u.l, s, inst) && inst.Call?
    requires if inst.result.Some? then FreshValue(u.f, u.h, inst.result.value) else NameOnly(u.f, u.h, instr.id)
    ensures Rel(u, Step(u.l, s, inst), Ir.Step(Sem(u), u.args, r, instr))
  {
    hide Lowered, NameOnly, LoadValue, StoreBytes, After, OperandsAre, Known;
    forall o | o in inst.args ensures IsSet(s, o) {
      var i :| 0 <= i < |inst.args| && inst.args[i] == o;
      KnownSet(u.l, s, inst.args[i]);
    }
    OperandsSame(u, s, r, instr.args, inst.args);
    AfterNext(u.l.callees, u.o, r.events, Ir.Event(instr.op, Values(u.l, s, inst.args)));
  }

  lemma KnownSet(l: Layout, s: IrState, o: Operand)
    requires Known(l, s, o)
    ensures IsSet(s, o)
  {
  }

  /** One instruction of a block. */
  lemma StepSame(u: Setup, s: IrState, r: Ir.Regs, b: Block, i: nat)
    requires SetupOk(u) && Rel(u, s, r) && b in u.h.blocks && i < |u.h.body[b]| && Safe(u.l, s, u.h.body[b][i])
    ensures b in u.f.body && i < |u.f.body[b]| && Rel(u, Step(u.l, s, u.h.body[b][i]), Ir.Step(Sem(u), u.args, r, u.f.body[b][i]))
  {
    hide Rel, Safe, Step, After, NameOnly, ArgsAre, ControlOk, InstIs, PhisAre, TermIs;
    assert BlockIs(u.f, u.h, u.sites, b);
    var instr, inst := u.f.body[b][i], u.h.body[b][i];
    assert InstIs(u.h, u.sites, instr, inst);
    if Defined(inst).Some? {
      assert FreshValue(u.f, u.h, Defined(inst).value);
    } else {
      NameOnlyHere(u, b, i);
    }
    match inst
    case Store(_, _) => StoreRel(u, s, r, instr, inst);
    case Call(_, _, _) => CallRel(u, s, r, instr, inst);
    case _ =>
      ValueSame(u, s, r, instr, inst);
      RelDefined(u, s, r, instr.id, Step(u.l, s, inst), Ir.Step(Sem(u), u.args, r, instr));
  }

  lemma NameOnlyHere(u: Setup, b: Block, i: nat)
    requires b in u.h.blocks && HasBlocks(u.h) && b in u.h.body && i < |u.h.body[b]| && b in u.f.body && i < |u.f.body[b]|
    requires InstIs(u.h, u.sites, u.f.body[b][i], u.h.body[b][i]) && Defined(u.h.body[b][i]).None?
    ensures NameOnly(u.f, u.h, u.f.body[b][i].id)
  {
  }

  lemma {:induction false} BodySame(u: Setup, s: IrState, r: Ir.Regs, b: Block, k: nat)
    requires SetupOk(u) && Rel(u, s, r) && b in u.h.blocks && k <= |u.h.body[b]| && SafeAll(u.l, s, u.h.body[b])
    ensures b in u.f.body && |u.f.body[b]| == |u.h.body[b]|
    ensures Rel(u, StepAll(u.l, s, u.h.body[b][..k]), Ir.Steps(Sem(u), u.args, r, u.f.body[b][..k]))
    decreases k
  {
    hide Rel, Safe, Step, After, NameOnly, ArgsAre, ControlOk, InstIs, PhisAre, TermIs, Ir.Step;
    assert BlockIs(u.f, u.h, u.sites, b);
    if k > 0 {
      BodySame(u, s, r, b, k - 1);
      var c, d := u.h.body[b][..k], u.f.body[b][..k];
      assert c[..k - 1] == u.h.body[b][..k - 1] && d[..k - 1] == u.f.body[b][..k - 1];
      StepSame(u, StepAll(u.l, s, u.h.body[b][..k - 1]), Ir.Steps(Sem(u), u.args, r, u.f.body[b][..k - 1]), b, k - 1);
    }
  }

  // ----- edges -----

  lemma {:induction false} IncomingSame(h: Function, pairs: seq<(Ir.Val, Block)>, pairs': seq<(Operand, Block)>, from: Block)
    requires PairsAre(h, pairs, pairs')
    ensures Ir.Incoming(pairs, from).Some? <==> IncomingOperand(pairs', from).Some?
    ensures Ir.Incoming(pairs, from).Some? ==> OperandIs(h, Ir.Incoming(pairs, from).value, IncomingOperand(pairs', from).value)
  {
    hide OperandIs;
    if pairs != [] && pairs[0].1 != from {
      IncomingSame(h, pairs[1..], pairs'[1..], from);
    }
  }

  /** The phis of an edge, all at once, in both. */
  lemma {:induction false} PhisSame(u: Setup, s: IrState, r: Ir.Regs, phis: seq<Ir.Phi>, phis': seq<Phi>, from: Block)
    requires ArgsAre(u.l, u.h, u.vals, u.args) && Rel(u, s, r) && PhisAre(u.h, phis, phis')
    requires forall i | 0 <= i < |phis| :: FreshValue(u.f, u.h, phis[i].id)
    ensures Rel(u, ParallelCopy(u.l, s, EdgeCopies(phis', from)), r.(env := Ir.EnterPhis(u.args, r.env, phis, from)))
    decreases |phis|
  {
    hide IsSet, OperandIs, After, NameOnly, ArgsAre, PairsAre, Rel, FreshValue, Value, Ir.Eval;
    if phis != [] {
      var n := |phis| - 1;
      var init, init' := phis[..n], phis'[..n];
      PhisSame(u, s, r, init, init', from);
      IncomingSame(u.h, phis[n].pairs, phis'[n].pairs, from);
      var before := ParallelCopy(u.l, s, EdgeCopies(init', from));
      var env := Ir.EnterPhis(u.args, r.env, init, from);
      match IncomingOperand(phis'[n].pairs, from)
      case None =>
      case Some(o) =>
        var v, id := Ir.Incoming(phis[n].pairs, from).value, phis[n].id;
        var cs := EdgeCopies(init', from);
        assert (cs + [(id, o)])[..|cs|] == cs;
        if IsSet(s, o) {
          OperandSame(u, s, r, v, o);
        }
        RelDefined(u, before, r.(env := env), id, Assign(before, id, IsSet(s, o), Value(u.l, s, o)), r.(env := env[id := Ir.Eval(u.args, r.env, v)]));
    }
  }

  lemma RelForget(u: Setup, s: IrState, r: Ir.Regs, gone: set<Id>)
    requires Rel(u, s, r)
    ensures Rel(u, s.(env := s.env - gone), r)
  {
    hide After, NameOnly;
  }

  /** Taking an edge. */
  lemma EdgeSame(u: Setup, s: IrState, r: Ir.Regs, b: Block, t: Block, gone: set<Id>)
    requires SetupOk(u) && Rel(u, s, r) && b in u.h.blocks && t in Targets(u.h.term[b])
    ensures t in u.h.blocks && t in u.f.phis
    ensures var s' := ParallelCopy(u.l, s, CopiesInto(u.h, t, b)); Rel(u, s'.(env := s'.env - gone), r.(env := Ir.EnterPhis(u.args, r.env, u.f.phis[t], b)))
  {
    hide OperandIs, After, NameOnly, ArgsAre, PairsAre, Rel, FreshValue, InstIs, TermIs, EdgeCopies, ParallelCopy, Ir.EnterPhis;
    assert BlockIs(u.f, u.h, u.sites, t);
    forall i | 0 <= i < |u.f.phis[t]| ensures FreshValue(u.f, u.h, u.f.phis[t][i].id) {
      assert FreshValue(u.f, u.h, u.h.phis[t][i].id);
    }
    PhisSame(u, s, r, u.f.phis[t], u.h.phis[t], b);
    RelForget(u, ParallelCopy(u.l, s, CopiesInto(u.h, t, b)), r.(env := Ir.EnterPhis(u.args, r.env, u.f.phis[t], b)), gone);
  }

  // ----- runs -----

  ghost predicate Matches(u: Setup, m: Ir.Machine, m': IrMachine) {
    match m'
    case In(b, s) => b in u.h.blocks && m.Running? && m.block == b && Rel(u, s, m.regs)
    case Finished(v, mem, trace) => m.Returned? && m.val == v && Outer(mem, trace) == After(u.l.callees, u.o, m.regs.events)
  }

  lemma BlockSame(u: Setup, s: IrState, r: Ir.Regs, b: Block)
    requires SetupOk(u) && Rel(u, s, r) && b in u.h.blocks && BlockSafe(u.l, u.h, b, s)
    ensures Matches(u, Ir.RunBlock(u.f, Sem(u), u.args, Ir.Running(b, r)), RunBlock(u.l, u.h, b, s))
  {
    hide OperandIs, After, NameOnly, ArgsAre, Rel, InstIs, CopiesFor, EdgeCopies, ParallelCopy, StepAll, Ir.Steps, Ir.EnterPhis, CopiesTyped, CopyFree, SafeAll, Known, Value,
      Ir.Eval, PhisAre;
    assert BlockIs(u.f, u.h, u.sites, b);
    BodySame(u, s, r, b, |u.h.body[b]|);
    assert u.h.body[b][..|u.h.body[b]|] == u.h.body[b] && u.f.body[b][..|u.f.body[b]|] == u.f.body[b];
    var s1, r1 := StepAll(u.l, s, u.h.body[b]), Ir.Steps(Sem(u), u.args, r, u.f.body[b]);
    match u.h.term[b]
    case Br(t) =>
      EdgeSame(u, s1, r1, b, t, {});
      var s' := ParallelCopy(u.l, s1, CopiesInto(u.h, t, b));
      assert s'.env - {} == s'.env && s'.(env := s'.env) == s';
    case CondBr(v, t, e) =>
      KnownSet(u.l, s1, v);
      OperandSame(u, s1, r1, u.f.term[b].cond, v);
      var yes, no := CopiesInto(u.h, t, b), CopiesInto(u.h, e, b);
      EdgeSame(u, s1, r1, b, t, CopyTargets(no) - CopyTargets(yes));
      EdgeSame(u, s1, r1, b, e, CopyTargets(yes) - CopyTargets(no));
    case Ret(v) =>
      if v.Some? {
        KnownSet(u.l, s1, v.value);
        OperandSame(u, s1, r1, u.f.term[b].val.value, v.value);
      }
      RelOuter(u, s1, r1);
  }

  lemma {:induction false} ArgEnvIs(args: seq<Id>, vals: seq<int>)
    requires |vals| == |args| && forall i, j | 0 <= i < j < |args| :: args[i] != args[j]
    ensures forall n | 0 <= n < |args| :: args[n] in ArgEnv(args, vals) && ArgEnv(args, vals)[args[n]] == vals[n]
    ensures forall id | id in ArgEnv(args, vals) :: id in args
  {
    if args != [] {
      ArgEnvIs(args[..|args| - 1], vals[..|args| - 1]);
    }
  }

  ghost function StartOf(u: Setup): IrMachine
    requires SetupOk(u)
  {
    In(u.h.blocks[0], IrState(ArgEnv(u.h.args, u.vals), u.o.mem, u.o.trace))
  }

  /** Every safe run of the typed function is a run of the function. */
  lemma {:induction false} LoweredRuns(u: Setup, n: nat)
    requires SetupOk(u) && RunSafe(u.l, u.h, StartOf(u), n)
    ensures Matches(u, Ir.Run(u.f, Sem(u), u.args, n), Run(u.l, u.h, StartOf(u), n))
    decreases n
  {
    hide SetupOk, BlockSafe, RunBlock, Ir.RunBlock, Rel;
    SetupFacts(u);
    if n == 0 {
      StartSame(u);
    } else {
      LoweredRuns(u, n - 1);
      var m, m' := Ir.Run(u.f, Sem(u), u.args, n - 1), Run(u.l, u.h, StartOf(u), n - 1);
      if m'.In? {
        BlockSame(u, m'.s, m.regs, m'.block);
        assert m == Ir.Running(m'.block, m.regs);
      } else {
        StaysReturned(u.f, Sem(u), u.args, m);
      }
    }
  }

  lemma SetupFacts(u: Setup)
    requires SetupOk(u)
    ensures HasBlocks(u.h) && u.h.blocks != [] && |u.vals| == |u.h.args|
  {
    hide NameOnly, BlockIs, ControlOk;
  }

  lemma StaysReturned(f: Ir.Func, sem: Ir.Sem, args: seq<int>, m: Ir.Machine)
    requires m.Returned?
    ensures Ir.RunBlock(f, sem, args, m) == m
  {
  }

  lemma StartSame(u: Setup)
    requires SetupOk(u)
    ensures Matches(u, Ir.Start(u.f), StartOf(u))
  {
    hide NameOnly, BlockIs;
    ArgEnvIs(u.h.args, u.vals);
    assert u.h.blocks[0] in u.h.blocks;
  }

  // ----- down to the machine -----

  /** After some steps the machine is where the function is, or has returned as it has: with its value in a0, the memory that its stores and
      calls give, after the same calls with the same arguments, and with the caller's sp, fp and ra. */
  ghost predicate MachineFollows(u: Setup, prog: seq<Asm>, st: State, m: Ir.Machine, mm: Machine) {
    match m
    case Running(b, r) => mm.At? && FindFrom(prog, b, 0) == Some(mm.pc)
    case Returned(v, r) =>
      && mm.Exited? && (v.Some? ==> Get(mm.st.regs, A(0)) == v.value)
      && Get(mm.st.regs, Sp) == Get(st.regs, Sp) && Get(mm.st.regs, Fp) == Get(st.regs, Fp) && Get(mm.st.regs, Ra) == Get(st.regs, Ra)
      && mm.st.trace == After(u.l.callees, u.o, r.events).trace
      && forall a | !Private(u.l, a) :: ByteAt(mm.st.mem, a) == ByteAt(After(u.l.callees, u.o, r.events).mem, a)
  }

  lemma CalledFacts(f: Function, off: map<Id, int>, frameSize: nat, vals: seq<int>, st: State)
    requires Called(f, off, frameSize, vals, st)
    ensures |vals| == |f.args|
  {
  }

  /** The emitted text does what the function does. */
  lemma TextRunsFunction(u: Setup, frameSize: nat, prog: seq<Asm>, st: State, n: nat) returns (k: nat)
    requires SetupOk(u) && Implements(u.h, u.l.off, frameSize, prog) && Called(u.h, u.l.off, frameSize, u.vals, st)
    requires u.l == FrameOf(st, u.l.off, u.h.ty, frameSize) && u.o == Outer(st.mem, st.trace) && RunSafe(u.l, u.h, StartOf(u), n)
    ensures k >= n && MachineFollows(u, prog, st, Ir.Run(u.f, Sem(u), u.args, n), Steps(prog, At(0, st), k))
  {
    hide Ir.Run, Run, Steps, RunSafe, Rel, Called, FrameOf, Agree, Lowered, ArgsAre, After, Private;
    SetupFacts(u);
    LoweredRuns(u, n);
    CalledFacts(u.h, u.l.off, frameSize, u.vals, st);
    k :| RunsThere(u.h, u.l.off, frameSize, prog, u.vals, st, n, k);
  }
}
