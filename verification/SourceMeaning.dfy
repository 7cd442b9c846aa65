/** What expressions of the syntax mean on the machine, in plain numbers. */
module SourceMeaning {
  import opened Common
  import Ir
  import Ast
  import LoongArch
  import Frame
  import Arithmetic
  import Lowering

  /** What the machine makes of an operation for two numbers. */
  ghost predicate ArithIs(op: Ast.ArithOp, x: int, y: int, w: int) {
    && (op.Plus? ==> w == LoongArch.S32(x + y))
    && (op.Minus? ==> w == LoongArch.S32(x - y))
    && (op.Times? ==> w == LoongArch.S32(x * y))
    && (op.Over? && y != 0 ==> exists q :: Arithmetic.Truncated(x, y, q) && w == LoongArch.S32(q))
  }

  lemma OperationOnMachine(u: Lowering.Setup, op: Ast.ArithOp, x: int, y: int)
    ensures ArithIs(op, x, y, Lowering.Sem(u).pure(Ast.OpcodeOf(op), [x, y]))
  {
    hide LoongArch.S32, LoongArch.DivTrunc, Arithmetic.Truncated;
    if y != 0 {
      Arithmetic.QuotientExact(x, y);
    }
  }

  /** Operands from left to right; sums, differences and products wrap at 32 bits, quotients truncate. */
  lemma ArithOnMachine(u: Lowering.Setup, scopes: Ast.Scopes, events: seq<Ir.Event>, op: Ast.ArithOp, l: Ast.Expr, r: Ast.Expr)
    returns (a: Ast.Outcome, b: Ast.Outcome, e: Ast.Outcome)
    ensures a == Ast.Eval(Lowering.Sem(u), scopes, events, l) && e == Ast.Eval(Lowering.Sem(u), scopes, events, Ast.Arith(op, l, r))
    ensures a.Value? ==> b == Ast.Eval(Lowering.Sem(u), a.scopes, a.events, r)
    ensures a.Value? && b.Value? ==>
              e.Value? && e.scopes == b.scopes && e.events == b.events && ArithIs(op, a.v, b.v, e.v)
  {
    hide ArithIs, Lowering.Sem;
    var sem := Lowering.Sem(u);
    a, e := Ast.Eval(sem, scopes, events, l), Ast.Eval(sem, scopes, events, Ast.Arith(op, l, r));
    b := a;
    if a.Value? {
      b := Ast.Eval(sem, a.scopes, a.events, r);
      if b.Value? {
        OperationOnMachine(u, op, a.v, b.v);
      }
    }
  }

  /** A comparison is 1 if it holds and 0 if it does not. */
  lemma RelationOnMachine(u: Lowering.Setup, scopes: Ast.Scopes, events: seq<Ir.Event>, cmp: Comparison, l: Ast.Expr, r: Ast.Expr)
    returns (a: Ast.Outcome, b: Ast.Outcome, e: Ast.Outcome)
    ensures a == Ast.Eval(Lowering.Sem(u), scopes, events, l) && e == Ast.Eval(Lowering.Sem(u), scopes, events, Ast.Relation(cmp, l, r))
    ensures a.Value? ==> b == Ast.Eval(Lowering.Sem(u), a.scopes, a.events, r)
    ensures a.Value? && b.Value? ==>
              e.Value? && e.scopes == b.scopes && e.events == b.events && 0 <= e.v <= 1 && Arithmetic.ComparisonIs(cmp, a.v, b.v, e.v == 1)
  {
    var sem := Lowering.Sem(u);
    a, e := Ast.Eval(sem, scopes, events, l), Ast.Eval(sem, scopes, events, Ast.Relation(cmp, l, r));
    b := if a.Value? then Ast.Eval(sem, a.scopes, a.events, r) else a;
  }

  /** The address that an array name stands for. */
  ghost predicate ArrayStart(scopes: Ast.Scopes, name: Ast.Name, base: int) {
    Ast.Lookup(scopes, name) == Some(Ast.PtrVar(base)) || Ast.Lookup(scopes, name) == Some(Ast.ArrayAt(base))
  }

  lemma AddressOnMachine(u: Lowering.Setup, base: int, i: int)
    ensures Lowering.Sem(u).pure(Ir.Gep, [base, i]) == LoongArch.S64(base + 4 * i)
    ensures Lowering.Sem(u).pure(Ir.Gep, [base, 0, i]) == LoongArch.S64(base + 4 * i)
  {
    hide LoongArch.S64;
  }

  /** Elements follow each other at a distance of four bytes; a negative index is reported and leaves. */
  lemma ElementOnMachine(u: Lowering.Setup, scopes: Ast.Scopes, events: seq<Ir.Event>, name: Ast.Name, i: Ast.Expr, base: int)
    returns (k: Ast.Outcome, e: Ast.Outcome)
    ensures k == Ast.Eval(Lowering.Sem(u), scopes, events, i) && e == Ast.EvalAddress(Lowering.Sem(u), scopes, events, name, i)
    ensures k.Value? && ArrayStart(k.scopes, name, base) && k.v >= 0 ==> e == Ast.Value(LoongArch.S64(base + 4 * k.v), k.scopes, k.events)
    ensures k.Value? && ArrayStart(k.scopes, name, base) && k.v < 0 ==> e == Ast.Exited(k.events + [Ir.Event(Ir.Call(Ast.NEG_IDX_EXCEPT), [])])
  {
    hide Lowering.Sem;
    k, e := Ast.Eval(Lowering.Sem(u), scopes, events, i), Ast.EvalAddress(Lowering.Sem(u), scopes, events, name, i);
    if k.Value? {
      AddressOnMachine(u, base, k.v);
    }
  }

  /** A load finds what was stored at its address last. */
  lemma StoredOnMachine(u: Lowering.Setup, events: seq<Ir.Event>, v: int, a: int)
    requires -0x8000_0000 <= v < 0x8000_0000
    ensures Lowering.Sem(u).outside(events + [Ir.Event(Ir.StorePtr, [v, a])], Ir.LoadPtr, [a]) == v
  {
    hide LoongArch.StoreBytes, Frame.LoadValue;
    Lowering.AfterNext(u.l.callees, u.o, events, Ir.Event(Ir.StorePtr, [v, a]));
    Frame.LoadValueStored(Lowering.After(u.l.callees, u.o, events).mem, Frame.I32, a, v, v);
  }

  /** Arguments are evaluated and passed from left to right, and the value is what the callee gives for them. */
  lemma CallOnMachine(u: Lowering.Setup, scopes: Ast.Scopes, events: seq<Ir.Event>, name: Ast.Name, callee: int, l: Ast.Expr, r: Ast.Expr)
    returns (a: Ast.Outcome, b: Ast.Outcome, e: Ast.Outcome)
    requires Ast.Lookup(scopes, name) == Some(Ast.Fn(callee))
    ensures a == Ast.Eval(Lowering.Sem(u), scopes, events, l) && e == Ast.Eval(Lowering.Sem(u), scopes, events, Ast.CallTo(name, [l, r]))
    ensures a.Value? ==> b == Ast.Eval(Lowering.Sem(u), a.scopes, a.events, r)
    ensures a.Value? && b.Value? ==>
              var o := Lowering.After(u.l.callees, u.o, b.events);
              e == Ast.Value(u.l.callees.val(callee, [a.v, b.v], o.mem, o.trace), b.scopes, b.events + [Ir.Event(Ir.Call(callee), [a.v, b.v])])
  {
    hide Lowering.After, Lowering.Sem, Ast.EvalArgs, Ast.Lookup;
    var sem := Lowering.Sem(u);
    a, e := Ast.Eval(sem, scopes, events, l), Ast.Eval(sem, scopes, events, Ast.CallTo(name, [l, r]));
    b := a;
    TwoArgs(sem, scopes, events, l, r);
    if a.Value? {
      b := Ast.Eval(sem, a.scopes, a.events, r);
      if b.Value? {
        GivenByCallee(u, b.events, callee, [a.v, b.v]);
      }
    }
  }

  lemma GivenByCallee(u: Lowering.Setup, events: seq<Ir.Event>, callee: int, vs: seq<int>)
    ensures var o := Lowering.After(u.l.callees, u.o, events);
            Lowering.Sem(u).outside(events, Ir.Call(callee), vs) == u.l.callees.val(callee, vs, o.mem, o.trace)
  {
    hide Lowering.After;
  }

  lemma TwoArgs(sem: Ir.Sem, scopes: Ast.Scopes, events: seq<Ir.Event>, l: Ast.Expr, r: Ast.Expr)
    ensures var a := Ast.Eval(sem, scopes, events, l);
            var args := Ast.EvalArgs(sem, scopes, events, [l, r]);
            a.Value? ==> var b := Ast.Eval(sem, a.scopes, a.events, r);
                         b.Value? ==> args == Ast.ArgValues([a.v, b.v], b.scopes, b.events)
  {
    hide Ast.Eval;
    assert [l, r][..1] == [l] && [l][..0] == [];
    assert Ast.EvalArgs(sem, scopes, events, []) == Ast.ArgValues([], scopes, events);
    var a := Ast.Eval(sem, scopes, events, l);
    if a.Value? {
      assert Ast.EvalArgs(sem, scopes, events, [l]) == Ast.ArgValues([a.v], a.scopes, a.events);
    }
  }
}
