/** The abstract syntax of one C-minus function, for integers and integer arrays,
    and what running it means, by recursion over the syntax. */
module Ast {
  import opened Common
  import opened Ir

  type Name = string

  datatype ArithOp = Plus | Minus | Times | Over

  datatype Expr =
    | Num(value: int)
    | VarRef(name: Name)
    | Index(name: Name, index: Expr)
    | Assign(name: Name, rhs: Expr)
    | AssignIndex(name: Name, index: Expr, rhs: Expr)
    | Relation(cmp: Comparison, left: Expr, right: Expr)
    | Arith(op: ArithOp, left: Expr, right: Expr)
    | CallTo(name: Name, args: seq<Expr>)

  /** A scalar or an array; site is the identity of the declaration. */
  datatype Decl = Decl(name: Name, site: int, isArray: bool)

  datatype Stmt =
    | Expression(e: Option<Expr>)
    | Compound(decls: seq<Decl>, stmts: seq<Stmt>)
    | If(cond: Expr, yes: Stmt, no: Option<Stmt>)
    | While(cond: Expr, body: Stmt)
    | Return(val: Option<Expr>)

  datatype Param = Param(name: Name, isArray: bool)

  datatype FunDecl = FunDecl(isVoid: bool, params: seq<Param>, decls: seq<Decl>, stmts: seq<Stmt>)

  // ----- scopes at run time -----

  /** What a name stands for while the program runs: a variable, perhaps without a value
      yet; a parameter that points to an array; an array; a global; a function. */
  datatype Cell =
    | IntVar(val: Option<int>)
    | PtrVar(ptr: int)
    | ArrayAt(addr: int)
    | GlobalInt(addr: int)
    | Fn(callee: int)

  type Scopes = seq<map<Name, Cell>>

  /** The innermost scope that has the name. */
  function Find<T>(scopes: seq<map<Name, T>>, name: Name): Option<nat>
    ensures Find(scopes, name).Some? ==>
              var i := Find(scopes, name).value; i < |scopes| && name in scopes[i] && forall j | i < j < |scopes| :: name !in scopes[j]
  {
    if scopes == [] then None
    else if name in scopes[|scopes| - 1] then Some(|scopes| - 1)
    else Find(scopes[..|scopes| - 1], name)
  }

  function Lookup<T>(scopes: seq<map<Name, T>>, name: Name): Option<T> {
    match Find(scopes, name)
    case Some(i) => Some(scopes[i][name])
    case None => None
  }

  function SetVar(scopes: Scopes, name: Name, v: int): Scopes {
    match Find(scopes, name)
    case Some(i) => scopes[i := scopes[i][name := IntVar(Some(v))]]
    case None => scopes
  }

  /** A new name in the innermost scope; a name that is already there stays as it is. */
  function Declare<T>(scopes: seq<map<Name, T>>, name: Name, t: T): seq<map<Name, T>> {
    if scopes == [] || name in scopes[|scopes| - 1] then scopes
    else scopes[|scopes| - 1 := scopes[|scopes| - 1][name := t]]
  }

  // ----- expressions -----

  /** Undefined: a variable without a value is read, or a name is used for what it is not.
      Exited: a negative index has ended the function. */
  datatype Outcome = Value(v: int, scopes: Scopes, events: seq<Event>) | Exited(events: seq<Event>) | Undefined

  /** The callee that reports a negative index. */
  const NEG_IDX_EXCEPT: int := -1

  function OpcodeOf(op: ArithOp): Opcode {
    match op
    case Plus => Add
    case Minus => Sub
    case Times => Mul
    case Over => Sdiv
  }

  /** Comparisons and zero extension mean what they say. */
  ghost predicate Standard(sem: Sem) {
    && (forall cmp, a, b :: sem.pure(Icmp(cmp), [a, b]) == if Holds(cmp, a, b) then 1 else 0)
    && (forall a :: sem.pure(Zext, [a]) == a)
  }

  /** An operation that memory or the outside takes part in. */
  ghost function Outside(sem: Sem, scopes: Scopes, events: seq<Event>, op: Opcode, vs: seq<int>): Outcome {
    Value(sem.outside(events, op, vs), scopes, events + [Event(op, vs)])
  }

  /** The address of an element, by what kind of array the name is. */
  ghost function ElementAddress(sem: Sem, c: Cell, i: int): Option<int> {
    match c
    case PtrVar(p) => Some(sem.pure(Gep, [p, i]))
    case ArrayAt(a) => Some(sem.pure(Gep, [a, 0, i]))
    case _ => None
  }

  /** Reads a name as a value: arrays are passed on by their first element's address. */
  ghost function Read(sem: Sem, scopes: Scopes, events: seq<Event>, name: Name): Outcome {
    match Lookup<Cell>(scopes, name)
    case Some(IntVar(Some(v))) => Value(v, scopes, events)
    case Some(PtrVar(p)) => Value(p, scopes, events)
    case Some(ArrayAt(a)) => Value(sem.pure(Gep, [a, 0, 0]), scopes, events)
    case Some(GlobalInt(a)) => Outside(sem, scopes, events, LoadPtr, [a])
    case _ => Undefined
  }

  /** Stores into a variable; the value of the assignment is what is stored. */
  ghost function Write(sem: Sem, scopes: Scopes, events: seq<Event>, name: Name, v: int): Outcome {
    match Lookup<Cell>(scopes, name)
    case Some(IntVar(_)) => Value(v, SetVar(scopes, name, v), events)
    case Some(GlobalInt(a)) => Value(v, scopes, events + [Event(StorePtr, [v, a])])
    case _ => Undefined
  }

  /** After the index is known: the check, then the address. */
  ghost function Locate(sem: Sem, scopes: Scopes, events: seq<Event>, name: Name, i: int): Outcome {
    match Lookup<Cell>(scopes, name)
    case Some(c) =>
      if ElementAddress(sem, c, i).None? then Undefined
      else if i < 0 then Exited(events + [Event(Call(NEG_IDX_EXCEPT), [])])
      else Value(ElementAddress(sem, c, i).value, scopes, events)
    case None => Undefined
  }

  ghost function Eval(sem: Sem, scopes: Scopes, events: seq<Event>, e: Expr): Outcome
    decreases e, 0
  {
    match e
    case Num(c) => Value(c, scopes, events)
    case VarRef(x) => Read(sem, scopes, events, x)
    case Index(x, i) =>
      var a := EvalAddress(sem, scopes, events, x, i);
      if !a.Value? then a else Outside(sem, a.scopes, a.events, LoadPtr, [a.v])
    case Assign(x, rhs) =>
      var r := Eval(sem, scopes, events, rhs);
      if !r.Value? then r else Write(sem, r.scopes, r.events, x, r.v)
    case AssignIndex(x, i, rhs) =>
      var r := Eval(sem, scopes, events, rhs);
      if !r.Value? then r
      else
        var a := EvalAddress(sem, r.scopes, r.events, x, i);
        if !a.Value? then a else Value(r.v, a.scopes, a.events + [Event(StorePtr, [r.v, a.v])])
    case Relation(cmp, l, r) =>
      var a := Eval(sem, scopes, events, l);
      if !a.Value? then a
      else
        var b := Eval(sem, a.scopes, a.events, r);
        if !b.Value? then b else Value(if Holds(cmp, a.v, b.v) then 1 else 0, b.scopes, b.events)
    case Arith(op, l, r) =>
      var a := Eval(sem, scopes, events, l);
      if !a.Value? then a
      else
        var b := Eval(sem, a.scopes, a.events, r);
        if !b.Value? then b else Value(sem.pure(OpcodeOf(op), [a.v, b.v]), b.scopes, b.events)
    case CallTo(x, args) =>
      if Lookup(scopes, x).None? || !Lookup(scopes, x).value.Fn? then Undefined
      else
        var r := EvalArgs(sem, scopes, events, args);
        match r
        case ArgValues(vs, scopes', events') => Outside(sem, scopes', events', Call(Lookup(scopes, x).value.callee), vs)
        case ArgsFail(o) => o
  }

  ghost function EvalAddress(sem: Sem, scopes: Scopes, events: seq<Event>, name: Name, index: Expr): Outcome
    decreases index, 1
  {
    var r := Eval(sem, scopes, events, index);
    if !r.Value? then r else Locate(sem, r.scopes, r.events, name, r.v)
  }

  datatype ArgsOutcome = ArgValues(vs: seq<int>, scopes: Scopes, events: seq<Event>) | ArgsFail(o: Outcome)

  /** Arguments from left to right. */
  ghost function EvalArgs(sem: Sem, scopes: Scopes, events: seq<Event>, args: seq<Expr>): ArgsOutcome
    decreases args, 0
  {
    if args == [] then ArgValues([], scopes, events)
    else
      match EvalArgs(sem, scopes, events, args[..|args| - 1])
      case ArgsFail(o) => ArgsFail(o)
      case ArgValues(vs, scopes', events') =>
        var r := Eval(sem, scopes', events', args[|args| - 1]);
        if !r.Value? then ArgsFail(r) else ArgValues(vs + [r.v], r.scopes, r.events)
  }

  // ----- statements -----

  datatype Effect =
    | Normal(scopes: Scopes, events: seq<Event>)
    | Left(val: Option<int>, events: seq<Event>)
    | OutOfFuel(events: seq<Event>)
    | Wrong

  /** What a function returns when nothing else says so. */
  function DefaultResult(isVoid: bool): Option<int> {
    if isVoid then None else Some(0)
  }

  function CellOf(sem: Sem, d: Decl): Cell {
    if d.isArray then ArrayAt(sem.pure(Alloca(d.site), [])) else IntVar(None)
  }

  function DeclareAll(sem: Sem, scopes: Scopes, decls: seq<Decl>): Scopes {
    if decls == [] then scopes
    else
      var d := decls[|decls| - 1];
      Declare(DeclareAll(sem, scopes, decls[..|decls| - 1]), d.name, CellOf(sem, d))
  }

  /** Without the innermost scope. */
  function Pop<T>(scopes: seq<T>): seq<T> {
    if scopes == [] then scopes else scopes[..|scopes| - 1]
  }

  ghost function ExprEffect(isVoid: bool, o: Outcome): Effect {
    match o
    case Value(_, scopes, events) => Normal(scopes, events)
    case Exited(events) => Left(DefaultResult(isVoid), events)
    case Undefined => Wrong
  }

  /** Running a statement; fuel bounds the number of times loop bodies are entered. */
  ghost function Exec(sem: Sem, isVoid: bool, scopes: Scopes, events: seq<Event>, s: Stmt, fuel: nat): Effect
    decreases fuel, s
  {
    match s
    case Expression(None) => Normal(scopes, events)
    case Expression(Some(e)) => ExprEffect(isVoid, Eval(sem, scopes, events, e))
    case Compound(decls, stmts) =>
      var r := ExecAll(sem, isVoid, DeclareAll(sem, scopes + [map[]], decls), events, stmts, fuel);
      if r.Normal? then Normal(Pop(r.scopes), r.events) else r
    case If(c, yes, no) =>
      var r := Eval(sem, scopes, events, c);
      if !r.Value? then ExprEffect(isVoid, r)
      else if r.v != 0 then Exec(sem, isVoid, r.scopes, r.events, yes, fuel)
      else if no.Some? then Exec(sem, isVoid, r.scopes, r.events, no.value, fuel)
      else Normal(r.scopes, r.events)
    case While(c, body) =>
      var r := Eval(sem, scopes, events, c);
      if !r.Value? then ExprEffect(isVoid, r)
      else if r.v == 0 then Normal(r.scopes, r.events)
      else if fuel == 0 then OutOfFuel(r.events)
      else
        var b := Exec(sem, isVoid, r.scopes, r.events, body, fuel - 1);
        if b.Normal? then Exec(sem, isVoid, b.scopes, b.events, s, fuel - 1) else b
    case Return(None) => Left(None, events)
    case Return(Some(e)) =>
      var r := Eval(sem, scopes, events, e);
      if r.Value? then Left(Some(r.v), r.events) else ExprEffect(isVoid, r)
  }

  ghost function ExecAll(sem: Sem, isVoid: bool, scopes: Scopes, events: seq<Event>, stmts: seq<Stmt>, fuel: nat): Effect
    decreases fuel, stmts
  {
    if stmts == [] then Normal(scopes, events)
    else
      var r := ExecAll(sem, isVoid, scopes, events, stmts[..|stmts| - 1], fuel);
      if r.Normal? then Exec(sem, isVoid, r.scopes, r.events, stmts[|stmts| - 1], fuel) else r
  }

  // ----- a call of the function -----

  function ParamCell(p: Param, v: int): Cell {
    if p.isArray then PtrVar(v) else IntVar(Some(v))
  }

  function BindParams(scopes: Scopes, params: seq<Param>, vals: seq<int>): Scopes {
    if params == [] then scopes
    else
      var n := |params| - 1;
      Declare(BindParams(scopes, params[..n], vals), params[n].name, ParamCell(params[n], if n < |vals| then vals[n] else 0))
  }

  /** Running the function body in the scope of its parameters. */
  ghost function Invoke(sem: Sem, globals: Scopes, d: FunDecl, vals: seq<int>, fuel: nat): Effect {
    var r := ExecAll(sem, d.isVoid, DeclareAll(sem, BindParams(globals + [map[]], d.params, vals), d.decls), [], d.stmts, fuel);
    if r.Normal? then Left(DefaultResult(d.isVoid), r.events) else r
  }
}
