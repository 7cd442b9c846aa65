/** A function on an array parameter: what it stores it reads back, and a negative index makes it return 0. */
module ElementExample {
  import opened Common
  import Ir
  import opened Ast
  import LoongArch
  import Lowering
  import SourceMeaning
  import opened Translation
  import Evaluation

  const STORE := Expression(Some(AssignIndex("a", VarRef("i"), VarRef("v"))))
  const FETCH := Return(Some(Index("a", VarRef("i"))))

  /** int put(int a[], int i, int v) { a[i] = v; return a[i]; } */
  const PUT := FunDecl(false, [Param("a", true), Param("i", false), Param("v", false)], [], [STORE, FETCH])

  ghost function Vars(globals: Scopes, a: int, i: int, v: int): Scopes {
    globals + [map["a" := PtrVar(a), "i" := IntVar(Some(i)), "v" := IntVar(Some(v))]]
  }

  lemma VarsRead(globals: Scopes, a: int, i: int, v: int)
    ensures var s := Vars(globals, a, i, v);
            Lookup(s, "a") == Some(PtrVar(a)) && Lookup(s, "i") == Some(IntVar(Some(i))) && Lookup(s, "v") == Some(IntVar(Some(v)))
  {
  }

  lemma ParamsBound(globals: Scopes, vals: seq<int>)
    requires |vals| >= 3
    ensures BindParams(globals + [map[]], PUT.params, vals) == Vars(globals, vals[0], vals[1], vals[2])
  {
    var a, i, v := Param("a", true), Param("i", false), Param("v", false);
    assert [a, i, v][..2] == [a, i] && [a, i][..1] == [a] && [a][..0] == [];
    assert BindParams(globals + [map[]], [], vals) == globals + [map[]];
    assert BindParams(globals + [map[]], [a], vals) == globals + [map["a" := PtrVar(vals[0])]];
    assert BindParams(globals + [map[]], [a, i], vals) == globals + [map["a" := PtrVar(vals[0]), "i" := IntVar(Some(vals[1]))]];
  }

  lemma BodyRuns(sem: Ir.Sem, scopes: Scopes, fuel: nat)
    ensures var r := Exec(sem, false, scopes, [], STORE, fuel);
            ExecAll(sem, false, scopes, [], PUT.stmts, fuel) == if r.Normal? then Exec(sem, false, r.scopes, r.events, FETCH, fuel) else r
  {
    hide Exec;
    assert PUT.stmts[..1] == [STORE] && [STORE][..0] == [];
    assert ExecAll(sem, false, scopes, [], [STORE], fuel) == Exec(sem, false, scopes, [], STORE, fuel);
  }

  /** The address of the element, or the report of a negative index. */
  lemma ElementFound(u: Lowering.Setup, globals: Scopes, events: seq<Ir.Event>, a: int, i: int, v: int)
    ensures var s := Vars(globals, a, i, v);
            EvalAddress(Lowering.Sem(u), s, events, "a", VarRef("i"))
            == if i < 0 then Exited(events + [Ir.Event(Ir.Call(NEG_IDX_EXCEPT), [])]) else Value(LoongArch.S64(a + 4 * i), s, events)
  {
    hide Lowering.Sem, Vars, Lookup;
    VarsRead(globals, a, i, v);
    var k, e := SourceMeaning.ElementOnMachine(u, Vars(globals, a, i, v), events, "a", VarRef("i"), a);
  }

  lemma StoreRuns(u: Lowering.Setup, globals: Scopes, a: int, i: int, v: int, fuel: nat)
    ensures Exec(Lowering.Sem(u), false, Vars(globals, a, i, v), [], STORE, fuel)
            == if i < 0 then Left(Some(0), [Ir.Event(Ir.Call(NEG_IDX_EXCEPT), [])])
               else Normal(Vars(globals, a, i, v), [Ir.Event(Ir.StorePtr, [v, LoongArch.S64(a + 4 * i)])])
  {
    hide Lowering.Sem, Vars, Lookup, EvalAddress, LoongArch.S64;
    VarsRead(globals, a, i, v);
    ElementFound(u, globals, [], a, i, v);
  }

  lemma FetchRuns(u: Lowering.Setup, globals: Scopes, a: int, i: int, v: int, fuel: nat)
    requires i >= 0 && -LoongArch.TWO_31 <= v < LoongArch.TWO_31
    ensures var at := LoongArch.S64(a + 4 * i);
            var events := [Ir.Event(Ir.StorePtr, [v, at])];
            Exec(Lowering.Sem(u), false, Vars(globals, a, i, v), events, FETCH, fuel) == Left(Some(v), events + [Ir.Event(Ir.LoadPtr, [at])])
  {
    hide Lowering.Sem, Vars, Lookup, EvalAddress, LoongArch.S64;
    var at := LoongArch.S64(a + 4 * i);
    ElementFound(u, globals, [Ir.Event(Ir.StorePtr, [v, at])], a, i, v);
    SourceMeaning.StoredOnMachine(u, [], v, at);
    assert [] + [Ir.Event(Ir.StorePtr, [v, at])] == [Ir.Event(Ir.StorePtr, [v, at])];
  }

  /** The call returns what it has stored at base plus four times the index, or 0 after the report of a negative index. */
  lemma PutReturns(u: Lowering.Setup, globals: Scopes, vals: seq<int>, fuel: nat)
    requires |vals| >= 3 && -LoongArch.TWO_31 <= vals[2] < LoongArch.TWO_31
    ensures var at := LoongArch.S64(vals[0] + 4 * vals[1]);
            Invoke(Lowering.Sem(u), globals, PUT, vals, fuel)
            == if vals[1] < 0 then Left(Some(0), [Ir.Event(Ir.Call(NEG_IDX_EXCEPT), [])])
               else Left(Some(vals[2]), [Ir.Event(Ir.StorePtr, [vals[2], at]), Ir.Event(Ir.LoadPtr, [at])])
  {
    hide Lowering.Sem, Vars, Exec, ExecAll, BindParams, LoongArch.S64;
    var a, i, v := vals[0], vals[1], vals[2];
    ParamsBound(globals, vals);
    BodyRuns(Lowering.Sem(u), Vars(globals, a, i, v), fuel);
    StoreRuns(u, globals, a, i, v, fuel);
    if i >= 0 {
      FetchRuns(u, globals, a, i, v, fuel);
    }
  }

  // ----- a statement with everything -----

  /** { int m[2]; g = f(p, m[i]); if (g < i) p[i] = g / 2; while (i) i = i - 1; return; } */
  const MIXED := Compound([Decl("m", 0, true)],
    [Expression(Some(Assign("g", CallTo("f", [VarRef("p"), Index("m", VarRef("i"))])))),
     If(Relation(Lt, VarRef("g"), VarRef("i")), Expression(Some(AssignIndex("p", VarRef("i"), Arith(Over, VarRef("g"), Num(2))))), None),
     While(VarRef("i"), Expression(Some(Assign("i", Arith(Minus, VarRef("i"), Num(1)))))),
     Expression(None),
     Return(None)])

  /** With names of every kind it is well-typed, and so it does not go wrong. */
  lemma MixedFine(sem: Ir.Sem, globals: Scopes, p: int, g: int, f: int, i: int, events: seq<Ir.Event>, fuel: nat)
    ensures var scopes := [map["p" := PtrVar(p), "g" := GlobalInt(g), "f" := Fn(f), "i" := IntVar(Some(i))]];
            !Exec(sem, true, scopes, events, MIXED, fuel).Wrong?
  {
    hide Exec;
    var ks := [map["p" := PtrKind, "g" := GlobalKind, "f" := FnKind, "i" := IntKind]];
    var scopes := [map["p" := PtrVar(p), "g" := GlobalInt(g), "f" := Fn(f), "i" := IntVar(Some(i))]];
    MixedTyped(ks);
    assert Evaluation.ScopesFit(ks, scopes);
    assert Evaluation.ArraysOnly(MIXED);
    Evaluation.ExecSound(sem, ks, true, scopes, events, MIXED, fuel);
  }

  lemma MixedTyped(ks: Kinds)
    requires ks == [map["p" := PtrKind, "g" := GlobalKind, "f" := FnKind, "i" := IntKind]]
    ensures StmtTyped(ks, true, MIXED)
  {
    var d := Decl("m", 0, true);
    var inner := ks + [map["m" := ArrayKind]];
    assert [d][..0] == [] && DeclareKinds(ks + [map[]], []) == ks + [map[]];
    assert DeclareKinds(ks + [map[]], [d]) == inner;
    assert inner == [ks[0], map["m" := ArrayKind]];
    var k, m := ks[0], map["m" := ArrayKind];
    OuterName(k, m, "p");
    OuterName(k, m, "g");
    OuterName(k, m, "f");
    OuterName(k, m, "i");
    MixedParts(inner);
  }

  lemma OuterName(k: map<Name, Kind>, m: map<Name, Kind>, x: Name)
    requires x in k && x !in m
    ensures Lookup([k, m], x) == Some(k[x])
  {
    assert [k, m][..1] == [k];
    assert Find([k], x) == Some(0);
  }

  lemma MixedParts(ks: Kinds)
    requires Lookup(ks, "p") == Some(PtrKind) && Lookup(ks, "g") == Some(GlobalKind) && Lookup(ks, "f") == Some(FnKind)
    requires Lookup(ks, "i") == Some(IntKind) && Lookup(ks, "m") == Some(ArrayKind)
    ensures forall s | s in MIXED.stmts :: StmtTyped(ks, true, s)
  {
    hide Lookup, Typed;
    MixedExprs(ks);
    assert StmtTyped(ks, true, Expression(Some(AssignIndex("p", VarRef("i"), Arith(Over, VarRef("g"), Num(2))))));
    assert StmtTyped(ks, true, Expression(Some(Assign("i", Arith(Minus, VarRef("i"), Num(1))))));
  }

  lemma MixedExprs(ks: Kinds)
    requires Lookup(ks, "p") == Some(PtrKind) && Lookup(ks, "g") == Some(GlobalKind) && Lookup(ks, "f") == Some(FnKind)
    requires Lookup(ks, "i") == Some(IntKind) && Lookup(ks, "m") == Some(ArrayKind)
    ensures Typed(ks, VarRef("i")) && Typed(ks, Assign("g", CallTo("f", [VarRef("p"), Index("m", VarRef("i"))])))
    ensures Typed(ks, Relation(Lt, VarRef("g"), VarRef("i")))
    ensures Typed(ks, AssignIndex("p", VarRef("i"), Arith(Over, VarRef("g"), Num(2)))) && Typed(ks, Assign("i", Arith(Minus, VarRef("i"), Num(1))))
  {
    hide Lookup;
    assert Typed(ks, VarRef("p")) && Typed(ks, VarRef("i")) && Typed(ks, VarRef("g")) && Typed(ks, Num(1)) && Typed(ks, Num(2));
    assert Typed(ks, Index("m", VarRef("i")));
    assert Typed(ks, CallTo("f", [VarRef("p"), Index("m", VarRef("i"))]));
    assert Typed(ks, Arith(Over, VarRef("g"), Num(2))) && Typed(ks, Arith(Minus, VarRef("i"), Num(1)));
  }
}
