/** The intermediate representation: functions of basic blocks with phis,
    promotable stack slots (scalar allocas), register instructions and one
    terminator per block, and what running such a function does. */
module Ir {
  import opened Common
  import opened Cfg

  /** Identity of a value-producing instruction. */
  type Id = int

  /** Identity of an alloca that only loads and stores use. */
  type Slot = int

  datatype Val = Const(c: int) | Arg(n: int) | Res(id: Id)

  /** Operations other than loads and stores of slots. Alloca gives the address of an
      array of the frame; LoadPtr and StorePtr access arrays and globals through addresses. */
  datatype Opcode =
    | Add | Sub | Mul | Sdiv
    | Icmp(cmp: Comparison) | Zext
    | Alloca(site: int) | Gep | LoadPtr | StorePtr
    | Call(callee: int)

  datatype Phi = Phi(id: Id, pairs: seq<(Val, Block)>)

  datatype Instr =
    | Load(id: Id, slot: Slot)
    | Store(rval: Val, slot: Slot)
    | Op(id: Id, op: Opcode, args: seq<Val>)

  datatype Term = Br(target: Block) | CondBr(cond: Val, ifTrue: Block, ifFalse: Block) | Ret(val: Option<Val>)

  /** A function; phis stand before the other instructions of their block. */
  datatype Func = Func(graph: Graph, phis: map<Block, seq<Phi>>, body: map<Block, seq<Instr>>, term: map<Block, Term>)

  function Targets(t: Term): seq<Block> {
    match t
    case Br(b) => [b]
    case CondBr(_, b, c) => [b, c]
    case Ret(_) => []
  }

  ghost predicate WellFormedFunc(f: Func) {
    && WellFormed(f.graph)
    && forall b | b in f.graph.blocks ::
      b in f.phis && b in f.body && b in f.term && f.graph.succ[b] == Targets(f.term[b])
  }

  // ----- meaning -----

  /** An operation that the outside can see or that changes memory. */
  datatype Event = Event(op: Opcode, args: seq<int>)

  /** What operations compute: from their operands, or also from all events so far
      (the contents of arrays and globals, and what calls return, are functions of those). */
  datatype Sem = Sem(pure: (Opcode, seq<int>) -> int, outside: (seq<Event>, Opcode, seq<int>) -> int)

  predicate IsPureOp(op: Opcode) {
    !op.LoadPtr? && !op.StorePtr? && !op.Call?
  }

  /** Registers, slots and events; clean until a slot is read before it is written. */
  datatype Regs = Regs(env: map<Id, int>, slots: map<Slot, int>, events: seq<Event>, clean: bool)

  datatype Machine =
    | Running(block: Block, regs: Regs)
    | Returned(val: Option<int>, regs: Regs)

  ghost function Eval(args: seq<int>, env: map<Id, int>, v: Val): int {
    match v
    case Const(c) => c
    case Arg(n) => if 0 <= n < |args| then args[n] else 0
    case Res(id) => if id in env then env[id] else 0
  }

  ghost function EvalAll(args: seq<int>, env: map<Id, int>, vs: seq<Val>): (r: seq<int>)
    ensures |r| == |vs| && forall i | 0 <= i < |vs| :: r[i] == Eval(args, env, vs[i])
  {
    seq(|vs|, i requires 0 <= i < |vs| => Eval(args, env, vs[i]))
  }

  ghost function Step(sem: Sem, args: seq<int>, r: Regs, instr: Instr): Regs {
    match instr
    case Load(id, x) =>
      r.(env := r.env[id := if x in r.slots then r.slots[x] else 0], clean := r.clean && x in r.slots)
    case Store(v, x) =>
      r.(slots := r.slots[x := Eval(args, r.env, v)])
    case Op(id, op, vs) =>
      var ops := EvalAll(args, r.env, vs);
      if IsPureOp(op) then
        r.(env := r.env[id := sem.pure(op, ops)])
      else
        r.(env := r.env[id := sem.outside(r.events, op, ops)], events := r.events + [Event(op, ops)])
  }

  ghost function Steps(sem: Sem, args: seq<int>, r: Regs, instrs: seq<Instr>): Regs {
    if instrs == [] then r else Step(sem, args, Steps(sem, args, r, instrs[..|instrs| - 1]), instrs[|instrs| - 1])
  }

  /** The first operand pair for a predecessor. */
  function Incoming(pairs: seq<(Val, Block)>, from: Block): Option<Val> {
    if pairs == [] then None
    else if pairs[0].1 == from then Some(pairs[0].0)
    else Incoming(pairs[1..], from)
  }

  /** All phis of a block at once, read in the environment before the edge;
      a phi without a pair for the edge keeps what it had. */
  ghost function EnterPhis(args: seq<int>, before: map<Id, int>, phis: seq<Phi>, from: Block): map<Id, int> {
    if phis == [] then before
    else
      var env := EnterPhis(args, before, phis[..|phis| - 1], from);
      var phi := phis[|phis| - 1];
      match Incoming(phi.pairs, from)
      case Some(v) => env[phi.id := Eval(args, before, v)]
      case None => env
  }

  ghost function Jump(f: Func, args: seq<int>, r: Regs, from: Block, to: Block): Machine {
    Running(to, if to in f.phis then r.(env := EnterPhis(args, r.env, f.phis[to], from)) else r)
  }

  /** One whole block: its instructions, then its terminator. */
  ghost function RunBlock(f: Func, sem: Sem, args: seq<int>, m: Machine): Machine {
    if m.Returned? || m.block !in f.body || m.block !in f.term then m
    else
      var r := Steps(sem, args, m.regs, f.body[m.block]);
      match f.term[m.block]
      case Br(b) => Jump(f, args, r, m.block, b)
      case CondBr(v, b, c) => Jump(f, args, r, m.block, if Eval(args, r.env, v) != 0 then b else c)
      case Ret(v) => Returned(if v.Some? then Some(Eval(args, r.env, v.value)) else None, r)
  }

  ghost function Start(f: Func): Machine {
    Running(f.graph.entry, Regs(map[], map[], [], true))
  }

  /** The machine after n blocks. */
  ghost function Run(f: Func, sem: Sem, args: seq<int>, n: nat): Machine {
    if n == 0 then Start(f) else RunBlock(f, sem, args, Run(f, sem, args, n - 1))
  }

  /** The same place, result and events. */
  ghost predicate SameOutcome(m: Machine, n: Machine) {
    && m.regs.events == n.regs.events
    && (m.Running? ==> n.Running? && n.block == m.block)
    && (m.Returned? ==> n.Returned? && n.val == m.val)
  }

  /** f' does what f does, in every environment, for runs of any length,
      as long as f has not read a slot before writing it. */
  ghost predicate Refines(f: Func, f': Func) {
    forall sem: Sem, args: seq<int>, n: nat | Run(f, sem, args, n).regs.clean ::
      SameOutcome(Run(f, sem, args, n), Run(f', sem, args, n))
  }

  // ----- static single assignment -----

  function Defines(instr: Instr): Option<Id> {
    match instr
    case Load(id, _) => Some(id)
    case Store(_, _) => None
    case Op(id, _, _) => Some(id)
  }

  function Uses(instr: Instr): seq<Val> {
    match instr
    case Load(_, _) => []
    case Store(v, _) => [v]
    case Op(_, _, vs) => vs
  }

  function TermUses(t: Term): seq<Val> {
    match t
    case Br(_) => []
    case CondBr(v, _, _) => [v]
    case Ret(v) => if v.Some? then [v.value] else []
  }

  ghost predicate DefinedAt(f: Func, id: Id, b: Block, i: int) {
    b in f.graph.blocks && b in f.body && 0 <= i < |f.body[b]| && Defines(f.body[b][i]) == Some(id)
  }

  ghost predicate PhiAt(f: Func, id: Id, b: Block, i: int) {
    b in f.graph.blocks && b in f.phis && 0 <= i < |f.phis[b]| && f.phis[b][i].id == id
  }

  /** id is defined by an instruction that comes before position i of b on all paths. */
  ghost predicate Available(f: Func, id: Id, b: Block, i: int) {
    exists c, j :: DefinedAt(f, id, c, j) && ((c == b && j < i) || StrictlyDominates(f.graph, c, b))
  }

  ghost predicate AllAvailable(f: Func, vs: seq<Val>, b: Block, i: int) {
    forall v | v in vs && v.Res? :: Available(f, v.id, b, i)
  }

  /** No two instructions have the same identity. */
  ghost predicate UniqueIds(f: Func) {
    forall id, b, i, c, j | DefinedAt(f, id, b, i) && DefinedAt(f, id, c, j) :: b == c && i == j
  }

  /** In reachable blocks, definitions dominate their uses. */
  ghost predicate UsesDominated(f: Func) {
    forall b | b in f.graph.blocks && Reachable(f.graph, b) && b in f.body && b in f.term ::
      && (forall i | 0 <= i < |f.body[b]| :: AllAvailable(f, Uses(f.body[b][i]), b, i))
      && AllAvailable(f, TermUses(f.term[b]), b, |f.body[b]|)
  }
}
