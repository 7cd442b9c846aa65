/** That the evaluation of the syntax is one: more fuel changes no result, and what is well-typed goes wrong only where a
    variable is read that has no value. */
module Evaluation {
  import opened Common
  import Ir
  import opened Ast
  import opened Translation
  import opened FunctionCode

  // ----- fuel -----

  lemma {:induction false} ExecMore(sem: Ir.Sem, isVoid: bool, scopes: Scopes, events: seq<Ir.Event>, s: Stmt, fuel: nat, more: nat)
    requires fuel <= more && !Exec(sem, isVoid, scopes, events, s, fuel).OutOfFuel?
    ensures Exec(sem, isVoid, scopes, events, s, more) == Exec(sem, isVoid, scopes, events, s, fuel)
    decreases fuel, s
  {
    hide Eval, DeclareAll;
    match s
    case Expression(_) =>
    case Return(_) =>
    case Compound(decls, stmts) =>
      ExecAllMore(sem, isVoid, DeclareAll(sem, scopes + [map[]], decls), events, stmts, fuel, more);
    case If(c, yes, no) =>
      var r := Eval(sem, scopes, events, c);
      if r.Value? && r.v != 0 {
        ExecMore(sem, isVoid, r.scopes, r.events, yes, fuel, more);
      } else if r.Value? && no.Some? {
        ExecMore(sem, isVoid, r.scopes, r.events, no.value, fuel, more);
      }
    case While(c, body) =>
      var r := Eval(sem, scopes, events, c);
      if r.Value? && r.v != 0 {
        ExecMore(sem, isVoid, r.scopes, r.events, body, fuel - 1, more - 1);
        var b := Exec(sem, isVoid, r.scopes, r.events, body, fuel - 1);
        if b.Normal? {
          ExecMore(sem, isVoid, b.scopes, b.events, s, fuel - 1, more - 1);
        }
      }
  }

  lemma {:induction false} ExecAllMore(sem: Ir.Sem, isVoid: bool, scopes: Scopes, events: seq<Ir.Event>, stmts: seq<Stmt>, fuel: nat, more: nat)
    requires fuel <= more && !ExecAll(sem, isVoid, scopes, events, stmts, fuel).OutOfFuel?
    ensures ExecAll(sem, isVoid, scopes, events, stmts, more) == ExecAll(sem, isVoid, scopes, events, stmts, fuel)
    decreases fuel, stmts
  {
    hide Exec;
    if stmts != [] {
      var init := stmts[..|stmts| - 1];
      ExecAllMore(sem, isVoid, scopes, events, init, fuel, more);
      var r := ExecAll(sem, isVoid, scopes, events, init, fuel);
      if r.Normal? {
        ExecMore(sem, isVoid, r.scopes, r.events, stmts[|stmts| - 1], fuel, more);
      }
    }
  }

  /** A call that returns with some fuel returns the same with more, and has not come to an end with less. */
  lemma ReturnsOnce(sem: Ir.Sem, globals: Scopes, d: FunDecl, vals: seq<int>, fuel: nat, other: nat)
    requires Invoke(sem, globals, d, vals, fuel).Left?
    ensures Invoke(sem, globals, d, vals, other) == Invoke(sem, globals, d, vals, fuel) || (other < fuel && Invoke(sem, globals, d, vals, other).OutOfFuel?)
  {
    hide ExecAll, DeclareAll, BindParams;
    var scopes := DeclareAll(sem, BindParams(globals + [map[]], d.params, vals), d.decls);
    if fuel <= other {
      ExecAllMore(sem, d.isVoid, scopes, [], d.stmts, fuel, other);
    } else if !ExecAll(sem, d.isVoid, scopes, [], d.stmts, other).OutOfFuel? {
      ExecAllMore(sem, d.isVoid, scopes, [], d.stmts, other, fuel);
    }
  }

  // ----- well-typed expressions -----

  /** A cell of that kind, with a value. */
  predicate CellFits(k: Kind, c: Cell) {
    match k
    case IntKind => c.IntVar? && c.val.Some?
    case PtrKind => c.PtrVar?
    case ArrayKind => c.ArrayAt?
    case GlobalKind => c.GlobalInt?
    case FnKind => c.Fn?
  }

  ghost predicate ScopeFits(k: map<Name, Kind>, s: map<Name, Cell>) {
    forall n :: (n in k <==> n in s) && (n in k ==> CellFits(k[n], s[n]))
  }

  /** Every name stands for something of its kind, and every variable has a value. */
  ghost predicate ScopesFit(ks: Kinds, scopes: Scopes) {
    |scopes| == |ks| && forall i | 0 <= i < |ks| :: ScopeFits(ks[i], scopes[i])
  }

  lemma {:induction false} NameFits(ks: Kinds, scopes: Scopes, x: Name)
    requires ScopesFit(ks, scopes)
    ensures Find(scopes, x) == Find(ks, x)
    ensures Lookup(ks, x).Some? ==> Lookup(scopes, x).Some? && CellFits(Lookup(ks, x).value, Lookup(scopes, x).value)
    decreases |ks|
  {
    hide CellFits;
    if ks != [] && x !in ks[|ks| - 1] {
      NameFits(ks[..|ks| - 1], scopes[..|scopes| - 1], x);
    }
  }

  lemma SetFits(ks: Kinds, scopes: Scopes, x: Name, v: int)
    requires ScopesFit(ks, scopes) && Lookup(ks, x) == Some(IntKind)
    ensures ScopesFit(ks, SetVar(scopes, x, v))
  {
    NameFits(ks, scopes, x);
  }

  /** It has a value and the scopes fit, or a negative index has ended the function. */
  ghost predicate Sound(ks: Kinds, o: Outcome) {
    !o.Undefined? && (o.Value? ==> ScopesFit(ks, o.scopes))
  }

  lemma ReadSound(sem: Ir.Sem, ks: Kinds, scopes: Scopes, events: seq<Ir.Event>, x: Name)
    requires ScopesFit(ks, scopes) && Typed(ks, VarRef(x))
    ensures Sound(ks, Read(sem, scopes, events, x))
  {
    hide Find, ScopesFit, Lookup;
    NameFits(ks, scopes, x);
  }

  lemma WriteSound(sem: Ir.Sem, ks: Kinds, scopes: Scopes, events: seq<Ir.Event>, x: Name, v: int)
    requires ScopesFit(ks, scopes) && IsScalar(Lookup(ks, x))
    ensures Sound(ks, Write(sem, scopes, events, x, v))
  {
    hide Find, ScopesFit, Lookup, SetVar;
    NameFits(ks, scopes, x);
    if Lookup(ks, x) == Some(IntKind) {
      SetFits(ks, scopes, x, v);
    }
  }

  lemma LocateSound(sem: Ir.Sem, ks: Kinds, scopes: Scopes, events: seq<Ir.Event>, x: Name, i: int)
    requires ScopesFit(ks, scopes) && IsArray(Lookup(ks, x))
    ensures Sound(ks, Locate(sem, scopes, events, x, i))
  {
    hide Find, ScopesFit, Lookup;
    NameFits(ks, scopes, x);
  }

  /** A well-typed expression is evaluated to a value, or a negative index ends the function. */
  lemma {:induction false} ExprSound(sem: Ir.Sem, ks: Kinds, scopes: Scopes, events: seq<Ir.Event>, e: Expr)
    requires ScopesFit(ks, scopes) && Typed(ks, e)
    ensures Sound(ks, Eval(sem, scopes, events, e))
    decreases e, 0
  {
    hide ScopesFit, Read, Write, Locate, Lookup, Find;
    match e
    case Num(_) =>
    case VarRef(x) => ReadSound(sem, ks, scopes, events, x);
    case Index(x, i) => AddressSound(sem, ks, scopes, events, x, i);
    case Assign(x, rhs) =>
      ExprSound(sem, ks, scopes, events, rhs);
      var r := Eval(sem, scopes, events, rhs);
      if r.Value? {
        WriteSound(sem, ks, r.scopes, r.events, x, r.v);
      }
    case AssignIndex(x, i, rhs) =>
      ExprSound(sem, ks, scopes, events, rhs);
      var r := Eval(sem, scopes, events, rhs);
      if r.Value? {
        AddressSound(sem, ks, r.scopes, r.events, x, i);
      }
    case Relation(_, l, r) =>
      ExprSound(sem, ks, scopes, events, l);
      var a := Eval(sem, scopes, events, l);
      if a.Value? {
        ExprSound(sem, ks, a.scopes, a.events, r);
      }
    case Arith(_, l, r) =>
      ExprSound(sem, ks, scopes, events, l);
      var a := Eval(sem, scopes, events, l);
      if a.Value? {
        ExprSound(sem, ks, a.scopes, a.events, r);
      }
    case CallTo(x, args) =>
      NameFits(ks, scopes, x);
      ArgsSound(sem, ks, scopes, events, args);
  }

  lemma {:induction false} AddressSound(sem: Ir.Sem, ks: Kinds, scopes: Scopes, events: seq<Ir.Event>, x: Name, i: Expr)
    requires ScopesFit(ks, scopes) && IsArray(Lookup(ks, x)) && Typed(ks, i)
    ensures Sound(ks, EvalAddress(sem, scopes, events, x, i))
    decreases i, 1
  {
    hide ScopesFit, Locate, Lookup, Eval, Typed;
    ExprSound(sem, ks, scopes, events, i);
    var r := Eval(sem, scopes, events, i);
    if r.Value? {
      LocateSound(sem, ks, r.scopes, r.events, x, r.v);
    }
  }

  lemma {:induction false} ArgsSound(sem: Ir.Sem, ks: Kinds, scopes: Scopes, events: seq<Ir.Event>, args: seq<Expr>)
    requires ScopesFit(ks, scopes) && forall a | a in args :: Typed(ks, a)
    ensures var r := EvalArgs(sem, scopes, events, args); if r.ArgValues? then ScopesFit(ks, r.scopes) else !r.o.Undefined? && !r.o.Value?
    decreases args, 0
  {
    hide ScopesFit, Eval, Typed;
    if args != [] {
      var init, last := args[..|args| - 1], args[|args| - 1];
      ArgsSound(sem, ks, scopes, events, init);
      var r := EvalArgs(sem, scopes, events, init);
      if r.ArgValues? {
        ExprSound(sem, ks, r.scopes, r.events, last);
      }
    }
  }

  // ----- well-typed statements -----

  /** No variable is declared that would have no value: arrays only. */
  predicate ArraysOnly(s: Stmt) {
    match s
    case Compound(decls, stmts) => (forall d | d in decls :: d.isArray) && forall t | t in stmts :: ArraysOnly(t)
    case If(_, yes, no) => ArraysOnly(yes) && (no.Some? ==> ArraysOnly(no.value))
    case While(_, body) => ArraysOnly(body)
    case _ => true
  }

  lemma DeclareFits(ks: Kinds, scopes: Scopes, x: Name, k: Kind, c: Cell)
    requires ScopesFit(ks, scopes) && CellFits(k, c)
    ensures ScopesFit(Declare(ks, x, k), Declare(scopes, x, c))
  {
    hide CellFits;
  }

  lemma {:induction false} DeclsFit(sem: Ir.Sem, ks: Kinds, scopes: Scopes, decls: seq<Decl>)
    requires ScopesFit(ks, scopes) && forall d | d in decls :: d.isArray
    ensures ScopesFit(DeclareKinds(ks, decls), DeclareAll(sem, scopes, decls)) && |DeclareKinds(ks, decls)| == |ks|
    ensures forall i | 0 <= i < |ks| - 1 :: DeclareKinds(ks, decls)[i] == ks[i]
    decreases |decls|
  {
    hide ScopesFit;
    if decls != [] {
      var init, d := decls[..|decls| - 1], decls[|decls| - 1];
      DeclsFit(sem, ks, scopes, init);
      DeclareFits(DeclareKinds(ks, init), DeclareAll(sem, scopes, init), d.name, ArrayKind, CellOf(sem, d));
      assert d in decls;
    }
  }

  /** The statement does not go wrong, and the scopes fit behind it. */
  ghost predicate Behaves(ks: Kinds, eff: Effect) {
    !eff.Wrong? && (eff.Normal? ==> ScopesFit(ks, eff.scopes))
  }

  lemma PopFits(ks: Kinds, inner: Kinds, scopes: Scopes)
    requires ScopesFit(inner, scopes) && |inner| == |ks| + 1 && forall i | 0 <= i < |ks| :: inner[i] == ks[i]
    ensures ScopesFit(ks, Pop(scopes))
  {
  }

  lemma PushFits(ks: Kinds, scopes: Scopes)
    requires ScopesFit(ks, scopes)
    ensures ScopesFit(ks + [map[]], scopes + [map[]])
  {
  }

  /** A well-typed statement does not go wrong, as long as it declares arrays only. */
  lemma {:induction false} ExecSound(sem: Ir.Sem, ks: Kinds, isVoid: bool, scopes: Scopes, events: seq<Ir.Event>, s: Stmt, fuel: nat)
    requires ScopesFit(ks, scopes) && StmtTyped(ks, isVoid, s) && ArraysOnly(s)
    ensures Behaves(ks, Exec(sem, isVoid, scopes, events, s, fuel))
    decreases fuel, s
  {
    hide ScopesFit, Eval, Typed, DeclareKinds, DeclareAll;
    match s
    case Expression(e) =>
      if e.Some? {
        ExprSound(sem, ks, scopes, events, e.value);
      }
    case Return(e) =>
      if e.Some? {
        ExprSound(sem, ks, scopes, events, e.value);
      }
    case Compound(decls, stmts) =>
      PushFits(ks, scopes);
      DeclsFit(sem, ks + [map[]], scopes + [map[]], decls);
      var inner, there := DeclareKinds(ks + [map[]], decls), DeclareAll(sem, scopes + [map[]], decls);
      ExecAllSound(sem, inner, isVoid, there, events, stmts, fuel);
      var r := ExecAll(sem, isVoid, there, events, stmts, fuel);
      if r.Normal? {
        assert forall i | 0 <= i < |ks| :: inner[i] == (ks + [map[]])[i];
        PopFits(ks, inner, r.scopes);
      }
    case If(c, yes, no) =>
      ExprSound(sem, ks, scopes, events, c);
      var r := Eval(sem, scopes, events, c);
      if r.Value? && r.v != 0 {
        ExecSound(sem, ks, isVoid, r.scopes, r.events, yes, fuel);
      } else if r.Value? && no.Some? {
        ExecSound(sem, ks, isVoid, r.scopes, r.events, no.value, fuel);
      }
    case While(c, body) =>
      ExprSound(sem, ks, scopes, events, c);
      var r := Eval(sem, scopes, events, c);
      if r.Value? && r.v != 0 && fuel > 0 {
        ExecSound(sem, ks, isVoid, r.scopes, r.events, body, fuel - 1);
        var b := Exec(sem, isVoid, r.scopes, r.events, body, fuel - 1);
        if b.Normal? {
          ExecSound(sem, ks, isVoid, b.scopes, b.events, s, fuel - 1);
        }
      }
  }

  lemma {:induction false} ExecAllSound(sem: Ir.Sem, ks: Kinds, isVoid: bool, scopes: Scopes, events: seq<Ir.Event>, stmts: seq<Stmt>, fuel: nat)
    requires ScopesFit(ks, scopes) && forall s | s in stmts :: StmtTyped(ks, isVoid, s) && ArraysOnly(s)
    ensures Behaves(ks, ExecAll(sem, isVoid, scopes, events, stmts, fuel))
    decreases fuel, stmts
  {
    hide ScopesFit, Exec, StmtTyped, ArraysOnly;
    if stmts != [] {
      var init, last := stmts[..|stmts| - 1], stmts[|stmts| - 1];
      ExecAllSound(sem, ks, isVoid, scopes, events, init, fuel);
      var r := ExecAll(sem, isVoid, scopes, events, init, fuel);
      if r.Normal? {
        ExecSound(sem, ks, isVoid, r.scopes, r.events, last, fuel);
      }
    }
  }

  // ----- calls -----

  lemma {:induction false} ParamsFit(ks: Kinds, scopes: Scopes, params: seq<Param>, vals: seq<int>)
    requires ScopesFit(ks, scopes)
    ensures ScopesFit(ParamKinds(ks, params), BindParams(scopes, params, vals))
    decreases |params|
  {
    hide ScopesFit;
    if params != [] {
      var n := |params| - 1;
      ParamsFit(ks, scopes, params[..n], vals);
      DeclareFits(ParamKinds(ks, params[..n]), BindParams(scopes, params[..n], vals), params[n].name, if params[n].isArray then PtrKind else IntKind,
                  ParamCell(params[n], if n < |vals| then vals[n] else 0));
    }
  }

  /** A well-typed function that declares arrays only never goes wrong. */
  lemma NeverWrong(sem: Ir.Sem, ks: Kinds, globals: Scopes, d: FunDecl, vals: seq<int>, fuel: nat)
    requires ScopesFit(ks, globals) && (forall c | c in d.decls :: c.isArray) && forall s | s in d.stmts :: ArraysOnly(s)
    requires forall s | s in d.stmts :: StmtTyped(DeclareKinds(ParamKinds(ks + [map[]], d.params), d.decls), d.isVoid, s)
    ensures !Invoke(sem, globals, d, vals, fuel).Wrong?
  {
    hide ScopesFit, ExecAll, DeclareAll, DeclareKinds, BindParams, ParamKinds, StmtTyped, ArraysOnly;
    PushFits(ks, globals);
    ParamsFit(ks + [map[]], globals + [map[]], d.params, vals);
    var ks1, scopes1 := ParamKinds(ks + [map[]], d.params), BindParams(globals + [map[]], d.params, vals);
    DeclsFit(sem, ks1, scopes1, d.decls);
    ExecAllSound(sem, DeclareKinds(ks1, d.decls), d.isVoid, DeclareAll(sem, scopes1, d.decls), [], d.stmts, fuel);
  }
}
