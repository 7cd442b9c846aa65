/** What the code of an expression means: relating the names and values of a running
    program to the slots, addresses and registers of its code. */
module Translation {
  import opened Common
  import opened Ir
  import opened Building
  import Ast

  type Name = Ast.Name

  /** What the builder's scopes say about a name. */
  datatype Binding =
    | IntSlot(x: Slot)
    | PtrSlot(x: Slot)
    | ArrayBase(v: Val)
    | GlobalVar(v: Val)
    | FnName(callee: int)

  type Env = seq<map<Name, Binding>>

  function SlotOf(b: Binding): Option<Slot> {
    if b.IntSlot? || b.PtrSlot? then Some(b.x) else None
  }

  function BaseOf(b: Binding): Option<Val> {
    if b.ArrayBase? || b.GlobalVar? then Some(b.v) else None
  }

  ghost predicate SlotsBelow(env: Env, m: Slot) {
    forall i, n | 0 <= i < |env| && n in env[i] && SlotOf(env[i][n]).Some? :: SlotOf(env[i][n]).value < m
  }

  ghost predicate SlotsDistinct(env: Env) {
    forall i, n, j, m | 0 <= i < |env| && n in env[i] && 0 <= j < |env| && m in env[j] && (i != j || n != m)
      && SlotOf(env[i][n]).Some? :: SlotOf(env[i][n]) != SlotOf(env[j][m])
  }

  ghost predicate BasesBelow(env: Env, k: Id) {
    forall i, n | 0 <= i < |env| && n in env[i] && BaseOf(env[i][n]).Some? && BaseOf(env[i][n]).value.Res? ::
      BaseOf(env[i][n]).value.id < k
  }

  /** Different names have different slots; slots and addresses are older than what comes next. */
  ghost predicate EnvOk(env: Env, nextId: Id, nextSlot: Slot) {
    SlotsBelow(env, nextSlot) && SlotsDistinct(env) && BasesBelow(env, nextId)
  }

  /** The addresses of arrays are available. */
  ghost predicate EnvAvail(env: Env, s: set<Id>) {
    forall i, n | 0 <= i < |env| && n in env[i] && BaseOf(env[i][n]).Some? && BaseOf(env[i][n]).value.Res? ::
      BaseOf(env[i][n]).value.id in s
  }

  ghost predicate CellOk(b: Binding, c: Ast.Cell, args: seq<int>, r: Regs) {
    match b
    case IntSlot(x) => c.IntVar? && (c.val.Some? ==> x in r.slots && r.slots[x] == c.val.value)
    case PtrSlot(x) => c.PtrVar? && x in r.slots && r.slots[x] == c.ptr
    case ArrayBase(v) => c.ArrayAt? && Eval(args, r.env, v) == c.addr
    case GlobalVar(v) => c.GlobalInt? && Eval(args, r.env, v) == c.addr
    case FnName(k) => c.Fn? && c.callee == k
  }

  /** The registers hold what the program's scopes say. */
  ghost predicate Related(env: Env, scopes: Ast.Scopes, args: seq<int>, r: Regs) {
    && |env| == |scopes|
    && (forall i, n | 0 <= i < |env| :: n in env[i] <==> n in scopes[i])
    && (forall i, n | 0 <= i < |env| && n in env[i] :: n in scopes[i] && CellOk(env[i][n], scopes[i][n], args, r))
  }

  /** Names older than n keep their values. */
  ghost predicate KeepsEnv(r: Regs, r': Regs, n: Id) {
    forall id | id < n :: (id in r.env <==> id in r'.env) && (id in r.env ==> r'.env[id] == r.env[id])
  }

  predicate Below(v: Val, n: Id) {
    v.Res? ==> v.id < n
  }

  lemma KeepsValue(args: seq<int>, r: Regs, r': Regs, n: Id, v: Val)
    requires KeepsEnv(r, r', n) && Below(v, n)
    ensures Eval(args, r'.env, v) == Eval(args, r.env, v)
  {
  }

  lemma KeepsRelated(env: Env, scopes: Ast.Scopes, args: seq<int>, r: Regs, r': Regs, nextId: Id, nextSlot: Slot)
    requires Related(env, scopes, args, r) && EnvOk(env, nextId, nextSlot)
    requires KeepsEnv(r, r', nextId) && r'.slots == r.slots
    ensures Related(env, scopes, args, r')
  {
    forall i, n | 0 <= i < |env| && n in env[i] ensures CellOk(env[i][n], scopes[i][n], args, r') {
      assert CellOk(env[i][n], scopes[i][n], args, r);
      if BaseOf(env[i][n]).Some? {
        KeepsValue(args, r, r', nextId, BaseOf(env[i][n]).value);
      }
    }
  }

  lemma {:induction false} FindSame(env: Env, scopes: Ast.Scopes, args: seq<int>, r: Regs, name: Name)
    requires Related(env, scopes, args, r)
    ensures Ast.Find(env, name) == Ast.Find(scopes, name)
    ensures Ast.Lookup(env, name).Some? <==> Ast.Lookup(scopes, name).Some?
    ensures Ast.Lookup(env, name).Some? ==> CellOk(Ast.Lookup(env, name).value, Ast.Lookup(scopes, name).value, args, r)
    decreases |env|
  {
    if env != [] && name !in env[|env| - 1] {
      FindSame(env[..|env| - 1], scopes[..|scopes| - 1], args, r, name);
    }
  }

  /** Storing into a variable's slot. */
  lemma SetRelated(env: Env, scopes: Ast.Scopes, args: seq<int>, r: Regs, name: Name, v: int, nextId: Id, nextSlot: Slot)
    requires Related(env, scopes, args, r) && EnvOk(env, nextId, nextSlot)
    requires Ast.Lookup(env, name).Some? && Ast.Lookup(env, name).value.IntSlot?
    ensures Related(env, Ast.SetVar(scopes, name, v), args, r.(slots := r.slots[Ast.Lookup(env, name).value.x := v]))
  {
    FindSame(env, scopes, args, r, name);
    var k := Ast.Find(env, name).value;
    var scopes', r' := Ast.SetVar(scopes, name, v), r.(slots := r.slots[Ast.Lookup(env, name).value.x := v]);
    forall i, n | 0 <= i < |env| && n in env[i] ensures n in scopes'[i] && CellOk(env[i][n], scopes'[i][n], args, r') {
      assert CellOk(env[i][n], scopes[i][n], args, r);
      if i != k || n != name {
        assert SlotOf(env[k][name]) != SlotOf(env[i][n]);
      }
    }
  }

  // ----- what is asked of expressions and statements -----

  datatype Kind = IntKind | PtrKind | ArrayKind | GlobalKind | FnKind

  type Kinds = seq<map<Name, Kind>>

  function KindOf(b: Binding): Kind {
    match b
    case IntSlot(_) => IntKind
    case PtrSlot(_) => PtrKind
    case ArrayBase(_) => ArrayKind
    case GlobalVar(_) => GlobalKind
    case FnName(_) => FnKind
  }

  ghost function KindsOf(env: Env): (ks: Kinds)
    ensures |ks| == |env|
  {
    seq(|env|, i requires 0 <= i < |env| => map n | n in env[i] :: KindOf(env[i][n]))
  }

  /** Names are declared, and used for what they are. */
  ghost predicate Typed(ks: Kinds, e: Ast.Expr) {
    match e
    case Num(_) => true
    case VarRef(x) => Ast.Lookup(ks, x).Some? && !Ast.Lookup(ks, x).value.FnKind?
    case Index(x, i) => IsArray(Ast.Lookup(ks, x)) && Typed(ks, i)
    case Assign(x, rhs) => IsScalar(Ast.Lookup(ks, x)) && Typed(ks, rhs)
    case AssignIndex(x, i, rhs) => IsArray(Ast.Lookup(ks, x)) && Typed(ks, i) && Typed(ks, rhs)
    case Relation(_, l, r) => Typed(ks, l) && Typed(ks, r)
    case Arith(_, l, r) => Typed(ks, l) && Typed(ks, r)
    case CallTo(x, args) => Ast.Lookup(ks, x) == Some(FnKind) && forall a | a in args :: Typed(ks, a)
  }

  predicate IsArray(k: Option<Kind>) {
    k == Some(PtrKind) || k == Some(ArrayKind)
  }

  predicate IsScalar(k: Option<Kind>) {
    k == Some(IntKind) || k == Some(GlobalKind)
  }

  function DeclareKinds(ks: Kinds, decls: seq<Ast.Decl>): Kinds {
    if decls == [] then ks
    else
      var d := decls[|decls| - 1];
      Ast.Declare(DeclareKinds(ks, decls[..|decls| - 1]), d.name, if d.isArray then ArrayKind else IntKind)
  }

  ghost predicate StmtTyped(ks: Kinds, isVoid: bool, s: Ast.Stmt)
    decreases s
  {
    match s
    case Expression(None) => true
    case Expression(Some(e)) => Typed(ks, e)
    case Compound(decls, stmts) => forall t | t in stmts :: StmtTyped(DeclareKinds(ks + [map[]], decls), isVoid, t)
    case If(c, yes, no) => Typed(ks, c) && StmtTyped(ks, isVoid, yes) && (no.Some? ==> StmtTyped(ks, isVoid, no.value))
    case While(c, body) => Typed(ks, c) && StmtTyped(ks, isVoid, body)
    case Return(None) => isVoid
    case Return(Some(e)) => !isVoid && Typed(ks, e)
  }

  lemma {:induction false} KindLookup(env: Env, x: Name)
    ensures Ast.Lookup(KindsOf(env), x).Some? <==> Ast.Lookup(env, x).Some?
    ensures Ast.Lookup(env, x).Some? ==> Ast.Lookup(KindsOf(env), x) == Some(KindOf(Ast.Lookup(env, x).value))
    decreases |env|
  {
    if env != [] && x !in env[|env| - 1] {
      assert KindsOf(env)[..|env| - 1] == KindsOf(env[..|env| - 1]);
      KindLookup(env[..|env| - 1], x);
    }
  }

  lemma KindDeclare(env: Env, name: Name, b: Binding)
    ensures KindsOf(Ast.Declare(env, name, b)) == Ast.Declare(KindsOf(env), name, KindOf(b))
  {
    if env != [] && name !in env[|env| - 1] {
      var last := |env| - 1;
      assert KindsOf(env)[last][name := KindOf(b)] == KindsOf(Ast.Declare(env, name, b))[last];
    }
  }

  predicate Indexable(env: Env, x: Name) {
    Ast.Lookup(env, x).Some? && (Ast.Lookup(env, x).value.PtrSlot? || Ast.Lookup(env, x).value.ArrayBase?)
  }

  predicate Assignable(env: Env, x: Name) {
    Ast.Lookup(env, x).Some? && (Ast.Lookup(env, x).value.IntSlot? || Ast.Lookup(env, x).value.GlobalVar?)
  }

  // ----- what the code of an expression does -----

  /** The run has come to c', with the program's scopes and events as given. */
  ghost predicate Comes(w: World, c: Code, c': Code, env: Env, r: Regs, r': Regs, scopes: Ast.Scopes, events: seq<Event>)
    requires CodeOk(c) && CodeOk(c')
  {
    && Reaches(w, Here(c, r), Here(c', r'))
    && Related(env, scopes, w.args, r') && r'.events == events && r'.clean == r.clean && KeepsEnv(r, r', c.nextId)
  }

  /** The run has left the function with the default result. */
  ghost predicate Leaves(w: World, c: Code, r: Regs, val: Option<int>, events: seq<Event>)
    requires CodeOk(c)
  {
    exists r' :: Reaches(w, Here(c, r), End(val, r')) && r'.events == events && r'.clean == r.clean
  }

  /** The code from c to c' does what the outcome says, with the value in v. */
  ghost predicate OutcomeRun(w: World, c: Code, c': Code, env: Env, isVoid: bool, r: Regs, o: Ast.Outcome, v: Val)
    requires CodeOk(c) && CodeOk(c')
  {
    match o
    case Undefined => true
    case Exited(events) => Leaves(w, c, r, Ast.DefaultResult(isVoid), events)
    case Value(x, scopes', events) =>
      exists r' :: Comes(w, c, c', env, r, r', scopes', events) && Eval(w.args, r'.env, v) == x
  }

  /** The code from c to c' does what evaluating e does. */
  ghost predicate ExprRun(w: World, c: Code, c': Code, env: Env, isVoid: bool, scopes: Ast.Scopes, r: Regs, e: Ast.Expr, v: Val)
    requires CodeOk(c) && CodeOk(c')
  {
    OutcomeRun(w, c, c', env, isVoid, r, Ast.Eval(w.sem, scopes, r.events, e), v)
  }

  ghost predicate Premise(w: World, c': Code, env: Env, scopes: Ast.Scopes, r: Regs) {
    FinalOf(c', w.f) && Ast.Standard(w.sem) && Related(env, scopes, w.args, r)
  }

  ghost predicate ExprRuns(c: Code, c': Code, env: Env, isVoid: bool, e: Ast.Expr, v: Val)
    requires CodeOk(c) && CodeOk(c')
  {
    forall w, scopes, r | Premise(w, c', env, scopes, r) :: ExprRun(w, c, c', env, isVoid, scopes, r, e, v)
  }

  lemma UseExpr(w: World, c: Code, c': Code, env: Env, isVoid: bool, scopes: Ast.Scopes, r: Regs, e: Ast.Expr, v: Val)
    requires CodeOk(c) && CodeOk(c') && ExprRuns(c, c', env, isVoid, e, v) && Premise(w, c', env, scopes, r)
    ensures ExprRun(w, c, c', env, isVoid, scopes, r, e, v)
  {
  }

  lemma ComesRefl(w: World, c: Code, env: Env, r: Regs, scopes: Ast.Scopes)
    requires CodeOk(c) && Related(env, scopes, w.args, r)
    ensures Comes(w, c, c, env, r, r, scopes, r.events)
  {
    ReachesRefl(w, Here(c, r));
  }

  lemma ComesTrans(w: World, c: Code, c': Code, c'': Code, env: Env, r: Regs, r': Regs, r'': Regs,
                   scopes': Ast.Scopes, events': seq<Event>, scopes'': Ast.Scopes, events'': seq<Event>)
    requires CodeOk(c) && CodeOk(c') && CodeOk(c'') && c.nextId <= c'.nextId
    requires Comes(w, c, c', env, r, r', scopes', events') && Comes(w, c', c'', env, r', r'', scopes'', events'')
    ensures Comes(w, c, c'', env, r, r'', scopes'', events'')
  {
    hide Related, Reaches;
    ReachesTrans(w, Here(c, r), Here(c', r'), Here(c'', r''));
  }

  lemma ComesLeaves(w: World, c: Code, c': Code, env: Env, r: Regs, r': Regs, scopes: Ast.Scopes, events: seq<Event>,
                    val: Option<int>, events': seq<Event>)
    requires CodeOk(c) && CodeOk(c') && Comes(w, c, c', env, r, r', scopes, events) && Leaves(w, c', r', val, events')
    ensures Leaves(w, c, r, val, events')
  {
    hide Related, Reaches;
    var r'' :| Reaches(w, Here(c', r'), End(val, r'')) && r''.events == events' && r''.clean == r'.clean;
    ReachesTrans(w, Here(c, r), Here(c', r'), End(val, r''));
  }

  // ----- steps -----

  /** A register operation. */
  lemma PureStep(w: World, c: Code, c': Code, env: Env, r: Regs, r': Regs, scopes: Ast.Scopes, events: seq<Event>, op: Opcode, vs: seq<Val>)
    returns (r'': Regs)
    requires CodeOk(c) && CodeOk(c') && c.nextId <= c'.nextId && Comes(w, c, c', env, r, r', scopes, events)
    requires IsPureOp(op) && EnvOk(env, c'.nextId, c'.nextSlot) && c'.cur !in c'.term
    requires FinalOf(Append(c', Op(c'.nextId, op, vs)), w.f)
    ensures var d := Append(c', Op(c'.nextId, op, vs));
            CodeOk(d) && Comes(w, c, d, env, r, r'', scopes, events)
    ensures Eval(w.args, r''.env, Res(c'.nextId)) == w.sem.pure(op, EvalAll(w.args, r'.env, vs))
    ensures KeepsEnv(r', r'', c'.nextId)
  {
    hide Reaches, EnvOk, Related;
    var i := Op(c'.nextId, op, vs);
    StepHere(w, c', i, r');
    r'' := Step(w.sem, w.args, r', i);
    ReachesOne(w, Here(c', r'));
    ReachesTrans(w, Here(c, r), Here(c', r'), Here(Append(c', i), r''));
    KeepsRelated(env, scopes, w.args, r', r'', c'.nextId, c'.nextSlot);
  }

  /** An operation that memory or the outside takes part in. */
  lemma OutsideStep(w: World, c: Code, c': Code, env: Env, r: Regs, r': Regs, scopes: Ast.Scopes, events: seq<Event>, op: Opcode, vs: seq<Val>)
    returns (r'': Regs)
    requires CodeOk(c) && CodeOk(c') && c.nextId <= c'.nextId && Comes(w, c, c', env, r, r', scopes, events)
    requires !IsPureOp(op) && EnvOk(env, c'.nextId, c'.nextSlot) && c'.cur !in c'.term
    requires FinalOf(Append(c', Op(c'.nextId, op, vs)), w.f)
    ensures var d := Append(c', Op(c'.nextId, op, vs));
            CodeOk(d) && Comes(w, c, d, env, r, r'', scopes, events + [Event(op, EvalAll(w.args, r'.env, vs))])
    ensures Eval(w.args, r''.env, Res(c'.nextId)) == w.sem.outside(events, op, EvalAll(w.args, r'.env, vs))
    ensures KeepsEnv(r', r'', c'.nextId)
  {
    hide Reaches, EnvOk, Related;
    var i := Op(c'.nextId, op, vs);
    StepHere(w, c', i, r');
    r'' := Step(w.sem, w.args, r', i);
    ReachesOne(w, Here(c', r'));
    ReachesTrans(w, Here(c, r), Here(c', r'), Here(Append(c', i), r''));
    KeepsRelated(env, scopes, w.args, r', r'', c'.nextId, c'.nextSlot);
  }

  /** Loading a slot that has been written. */
  lemma LoadStep(w: World, c: Code, c': Code, env: Env, r: Regs, r': Regs, scopes: Ast.Scopes, events: seq<Event>, x: Slot)
    returns (r'': Regs)
    requires CodeOk(c) && CodeOk(c') && c.nextId <= c'.nextId && Comes(w, c, c', env, r, r', scopes, events)
    requires x in r'.slots && EnvOk(env, c'.nextId, c'.nextSlot) && c'.cur !in c'.term
    requires FinalOf(Append(c', Load(c'.nextId, x)), w.f)
    ensures var d := Append(c', Load(c'.nextId, x));
            CodeOk(d) && Comes(w, c, d, env, r, r'', scopes, events)
    ensures Eval(w.args, r''.env, Res(c'.nextId)) == r'.slots[x]
    ensures KeepsEnv(r', r'', c'.nextId)
  {
    hide Reaches, EnvOk, Related;
    var i := Load(c'.nextId, x);
    StepHere(w, c', i, r');
    r'' := Step(w.sem, w.args, r', i);
    ReachesOne(w, Here(c', r'));
    ReachesTrans(w, Here(c, r), Here(c', r'), Here(Append(c', i), r''));
    KeepsRelated(env, scopes, w.args, r', r'', c'.nextId, c'.nextSlot);
  }

  /** Storing into a variable's slot. */
  lemma StoreStep(w: World, c: Code, c': Code, env: Env, r: Regs, r': Regs, scopes: Ast.Scopes, events: seq<Event>, name: Name, v: Val)
    returns (r'': Regs)
    requires CodeOk(c) && CodeOk(c') && c.nextId <= c'.nextId && Comes(w, c, c', env, r, r', scopes, events)
    requires EnvOk(env, c'.nextId, c'.nextSlot) && c'.cur !in c'.term
    requires Ast.Lookup(env, name).Some? && Ast.Lookup(env, name).value.IntSlot?
    requires FinalOf(Append(c', Store(v, Ast.Lookup(env, name).value.x)), w.f)
    ensures var d := Append(c', Store(v, Ast.Lookup(env, name).value.x));
            CodeOk(d) && Comes(w, c, d, env, r, r'', Ast.SetVar(scopes, name, Eval(w.args, r'.env, v)), events)
    ensures r''.env == r'.env
  {
    hide Reaches, EnvOk, Related;
    var i := Store(v, Ast.Lookup(env, name).value.x);
    StepHere(w, c', i, r');
    r'' := Step(w.sem, w.args, r', i);
    ReachesOne(w, Here(c', r'));
    ReachesTrans(w, Here(c, r), Here(c', r'), Here(Append(c', i), r''));
    SetRelated(env, scopes, w.args, r', name, Eval(w.args, r'.env, v), c'.nextId, c'.nextSlot);
  }
}
