/** The visitor that turns the syntax of a function into blocks: scopes, an insert
    point, and one method per kind of syntax node. */
module CminusBuilder {
  import opened Common
  import opened Cfg
  import opened Ir
  import opened Building
  import opened Translation
  import opened ExprCode
  import opened IndexCode
  import opened StmtCode
  import opened ControlCode
  import opened ScopeCode
  import opened Closing
  import opened FunctionCode
  import opened CompiledCode
  import opened Layout
  import opened LiveBlocks
  import Ast

  /** The stack of name maps, innermost last. */
  class Scope {
    var inner: Env

    constructor ()
      ensures inner == []
    {
      inner := [];
    }

    method Enter()
      modifies this
      ensures inner == old(inner) + [map[]]
    {
      inner := inner + [map[]];
    }

    method Exit()
      requires inner != []
      modifies this
      ensures inner == old(inner)[..|old(inner)| - 1]
    {
      inner := inner[..|inner| - 1];
    }

    /** A name that is already in the innermost scope keeps its binding. */
    method Push(name: Name, b: Binding) returns (ok: bool)
      requires inner != []
      modifies this
      ensures inner == Ast.Declare(old(inner), name, b) && (ok <==> name !in old(inner)[|old(inner)| - 1])
    {
      var top := |inner| - 1;
      ok := name !in inner[top];
      if ok {
        inner := inner[top := inner[top][name := b]];
      }
    }

    /** From the innermost scope outwards. */
    method FindName(name: Name) returns (b: Binding)
      requires Ast.Lookup(inner, name).Some?
      ensures b == Ast.Lookup(inner, name).value
    {
      var i := |inner|;
      assert inner[..i] == inner;
      while name !in inner[i - 1]
        invariant 0 < i <= |inner| && Ast.Lookup(inner[..i], name) == Ast.Lookup(inner, name)
        decreases i
      {
        assert inner[..i][..i - 1] == inner[..i - 1];
        i := i - 1;
        assert Ast.Lookup(inner[..i], name).Some?;
      }
      b := inner[i - 1][name];
    }
  }

  /** An address, or the alloca of a promotable variable. */
  datatype VarResult = SlotAddress(x: Slot) | Result(v: Val)

  /** The last instruction so far is this operation, and v is its value. */
  ghost predicate LastGives(c: Code, op: Opcode, v: Val) {
    && c.cur in c.body && |c.body[c.cur]| > 0
    && var last := c.body[c.cur][|c.body[c.cur]| - 1];
       last.Op? && last.op == op && v == Res(last.id)
  }

  lemma AppendedGives(c: Code, op: Opcode, vs: seq<Val>)
    ensures LastGives(Append(c, Op(c.nextId, op, vs)), op, Res(c.nextId))
  {
  }

  class CminusfBuilder {
    var blocks: nat
    var body: map<Block, seq<Instr>>
    var term: map<Block, Term>
    var pre: map<Block, seq<Block>>
    var succ: map<Block, seq<Block>>
    var insertBlock: Block
    var nextId: Id
    var nextSlot: Slot
    var requireLvalue: bool
    var preEnterScope: bool
    var isVoid: bool
    const scope: Scope
    ghost var avail: map<Block, set<Id>>

    /** The global scope begins with the functions of the run-time library. */
    constructor ()
      ensures fresh(scope) && |scope.inner| == 1 && !requireLvalue && !preEnterScope
      ensures Ast.Lookup(scope.inner, "neg_idx_except") == Some(FnName(Ast.NEG_IDX_EXCEPT))
      ensures forall n | n in scope.inner[0] :: scope.inner[0][n].FnName?
    {
      blocks, insertBlock, nextId, nextSlot := 0, 0, 0, 0;
      body, term, pre, succ := map[], map[], map[], map[];
      requireLvalue, preEnterScope, isVoid := false, false, true;
      avail := map[];
      var s := new Scope();
      s.Enter();
      var ok := s.Push("input", FnName(0));
      ok := s.Push("output", FnName(1));
      ok := s.Push("outputFloat", FnName(2));
      ok := s.Push("neg_idx_except", FnName(Ast.NEG_IDX_EXCEPT));
      scope := s;
    }

    ghost function Snap(): Code
      reads this
    {
      Code(blocks, body, term, insertBlock, nextId, nextSlot, avail)
    }

    ghost predicate Open()
      reads this, scope
    {
      Good(Snap(), scope.inner) && insertBlock !in term && Mirrored(blocks, term, pre, succ)
    }

    // ----- blocks and instructions -----

    method Emit1(i: Instr)
      requires CodeOk(Snap()) && insertBlock !in term && Mirrored(blocks, term, pre, succ)
      modifies this`body, this`nextId
      ensures Snap() == Append(old(Snap()), i) && Mirrored(blocks, term, pre, succ)
    {
      body := body[insertBlock := body[insertBlock] + [i]];
      if Defines(i).Some? {
        nextId := nextId + 1;
      }
    }

    method NewBlock() returns (b: Block)
      requires CodeOk(Snap()) && Mirrored(blocks, term, pre, succ)
      modifies this`blocks, this`body, this`pre, this`succ, this`avail
      ensures b == old(blocks) && Snap() == Create(old(Snap()), 1) && Mirrored(blocks, term, pre, succ)
    {
      hide AvailNow, Mirrored, CodeOk;
      MirrorCreate(Snap(), pre, succ);
      CreateNew(Snap());
      b := blocks;
      ghost var now := AvailNow(Snap());
      avail := avail[b := now];
      body, pre, succ := body[b := []], pre[b := []], succ[b := []];
      blocks := blocks + 1;
    }

    method SetInsertPoint(b: Block)
      requires Mirrored(blocks, term, pre, succ)
      modifies this`insertBlock
      ensures Snap() == old(Snap()).(cur := b) && Mirrored(blocks, term, pre, succ)
    {
      insertBlock := b;
    }

    /** The branch is appended, and both lists are kept in step. */
    method CreateBr(t: Block)
      requires CodeOk(Snap()) && insertBlock !in term && Mirrored(blocks, term, pre, succ) && 0 <= t < blocks
      modifies this`term, this`pre, this`succ
      ensures Snap() == old(Snap()).(term := old(term)[insertBlock := Br(t)]) && Mirrored(blocks, term, pre, succ)
    {
      ghost var pre0 := pre;
      pre := pre[t := pre[t] + [insertBlock]];
      MirrorEdges(Snap(), Br(t), pre0, succ, pre);
      succ := succ[insertBlock := [t]];
      term := term[insertBlock := Br(t)];
    }

    method CreateCondBr(v: Val, yes: Block, no: Block)
      requires CodeOk(Snap()) && insertBlock !in term && Mirrored(blocks, term, pre, succ) && 0 <= yes < blocks && 0 <= no < blocks
      modifies this`term, this`pre, this`succ
      ensures Snap() == old(Snap()).(term := old(term)[insertBlock := CondBr(v, yes, no)]) && Mirrored(blocks, term, pre, succ)
    {
      hide Mirrored;
      MirrorCond(Snap(), v, yes, no, pre, succ);
      pre := pre[yes := pre[yes] + [insertBlock]];
      pre := pre[no := pre[no] + [insertBlock]];
      succ := succ[insertBlock := [yes, no]];
      term := term[insertBlock := CondBr(v, yes, no)];
    }

    method CreateRet(v: Option<Val>)
      requires CodeOk(Snap()) && insertBlock !in term && Mirrored(blocks, term, pre, succ)
      modifies this`term
      ensures Snap() == Branch(old(Snap()), Ret(v), insertBlock) && Mirrored(blocks, term, pre, succ)
    {
      MirrorEdges(Snap(), Ret(v), pre, succ, pre);
      assert succ[insertBlock := []] == succ;
      term := term[insertBlock := Ret(v)];
    }

    // ----- expressions -----

    /** A variable or an element: its value, or its address when an lvalue is required. */
    method VisitVar(name: Name, index: Option<Ast.Expr>, ghost whole: Ast.Expr) returns (r: VarResult)
      requires Open() && (index.Some? ==> index.value < whole)
      requires var k := Ast.Lookup(KindsOf(scope.inner), name);
               if index.Some? then IsArray(k) && Typed(KindsOf(scope.inner), index.value)
               else if requireLvalue then IsScalar(k) else k.Some? && !k.value.FnKind?
      modifies this`blocks, this`body, this`term, this`pre, this`succ, this`insertBlock, this`nextId, this`avail, this`requireLvalue
      ensures Open() && !requireLvalue && Straight(old(Snap()), Snap())
      ensures index.None? && !old(requireLvalue) ==>
                r.Result? && ExprDone(old(Snap()), Snap(), scope.inner, isVoid, Ast.VarRef(name), r.v)
      ensures index.Some? && !old(requireLvalue) ==>
                r.Result? && ExprDone(old(Snap()), Snap(), scope.inner, isVoid, Ast.Index(name, index.value), r.v)
      ensures index.None? && old(requireLvalue) ==>
                Snap() == old(Snap()) && Ast.Lookup(scope.inner, name).Some?
                && r == match Ast.Lookup(scope.inner, name).value { case IntSlot(x) => SlotAddress(x) case b => Result(if b.GlobalVar? then b.v else Const(0)) }
      ensures index.Some? && old(requireLvalue) ==>
                r.Result? && AddressDone(old(Snap()), Snap(), scope.inner, isVoid, name, index.value, r.v)
      decreases whole, 0
    {
      hide Good, ExprDone, AddressDone, CodeOk, Certified, Mirrored, Guarded, Located, Typed, AvailNow, Stage, Usable, Straight;
      ghost var env, c0 := scope.inner, Snap();
      GoodCode(c0, env);
      StraightRefl(c0);
      KindLookup(env, name);
      var var_ := scope.FindName(name);
      var shouldReturnLvalue := requireLvalue;
      requireLvalue := false;
      if index.None? {
        if shouldReturnLvalue {
          r := if var_.IntSlot? then SlotAddress(var_.x) else Result(if var_.GlobalVar? then var_.v else Const(0));
        } else {
          ReadDone(c0, env, isVoid, name);
          r := Result(Res(nextId));
          Emit1(ReadInstr(var_, nextId));
          StraightEmit(c0, c0, ReadInstr(var_, c0.nextId));
          DoneOpen(c0, Snap(), env, isVoid, Ast.VarRef(name), r.v);
        }
      } else {
        var ptr := VisitElement(var_, name, index.value);
        if shouldReturnLvalue {
          r := Result(ptr);
        } else {
          ghost var c2 := Snap();
          GoodCode(c2, env);
          IndexDone(c0, c2, env, isVoid, name, index.value, ptr);
          r := Result(Res(nextId));
          Emit1(Op(nextId, LoadPtr, [ptr]));
          StraightEmit(c0, c2, Op(c2.nextId, LoadPtr, [ptr]));
          DoneOpen(c0, Snap(), env, isVoid, Ast.Index(name, index.value), r.v);
        }
      }
    }

    /** The address of an element: the index, its check, and the address from it. */
    method VisitElement(b: Binding, ghost name: Name, index: Ast.Expr) returns (ptr: Val)
      requires Open() && !requireLvalue && Typed(KindsOf(scope.inner), index)
      requires IsArray(Ast.Lookup(KindsOf(scope.inner), name)) && Ast.Lookup(scope.inner, name) == Some(b)
      modifies this`blocks, this`body, this`term, this`pre, this`succ, this`insertBlock, this`nextId, this`avail, this`requireLvalue
      ensures Open() && !requireLvalue && Straight(old(Snap()), Snap())
      ensures AddressDone(old(Snap()), Snap(), scope.inner, isVoid, name, index, ptr)
      decreases index, 3
    {
      hide Good, ExprDone, AddressDone, CodeOk, Certified, Mirrored, Guarded, Located, Typed, AvailNow, Stage, Usable, Straight;
      ghost var env, c0 := scope.inner, Snap();
      KindLookup(env, name);
      var val := VisitExpr(index);
      ghost var c1 := Snap();
      DoneOpen(c0, c1, env, isVoid, index, val);
      AddressIsDone(c0, c1, env, isVoid, name, index, val);
      Guard(val, c0);
      ptr := Locate(b, val, c0, Snap());
      AddressOpen(c0, Snap(), env, isVoid, name, index, ptr);
    }

    /** The check of an index, with the report and the early return in a block of their own. */
    method Guard(val: Val, ghost base: Code)
      requires Open() && Stage(base, Snap(), scope.inner) && Usable(Snap(), val) && base.cur !in base.term && Straight(base, Snap())
      modifies this`blocks, this`body, this`term, this`pre, this`succ, this`insertBlock, this`nextId, this`avail
      ensures Snap() == Guarded(old(Snap()), val, isVoid) && CodeOk(Snap()) && Mirrored(blocks, term, pre, succ) && insertBlock !in term
      ensures Straight(base, Snap())
    {
      hide Good, Certified, Mirrored, AvailNow, Stage, Usable, CodeOk, Straight, Create, Compared, Checked, Reported, Guarded, Append, Branch;
      ghost var c, env := Snap(), scope.inner;
      GuardPrepared(base, c, env, val, isVoid);
      var contBB := Check(val);
      Report(contBB, c, val);
    }

    /** Is the index negative? */
    method Check(val: Val) returns (contBB: Block)
      requires CodeOk(Snap()) && insertBlock !in term && Mirrored(blocks, term, pre, succ)
      requires var c := Snap();
               && CodeOk(Create(c, 1)) && Create(Create(c, 1), 1) == Create(c, 2) && CodeOk(Create(c, 2)) && Create(c, 2).nextId == c.nextId
               && Create(c, 1).count == c.count + 1 && Create(c, 2).count == c.count + 2 && Create(c, 2).term == c.term && Create(c, 2).cur == c.cur
               && CodeOk(Compared(c, val)) && Compared(c, val).cur !in Compared(c, val).term && CodeOk(Checked(c, val))
      modifies this`blocks, this`body, this`term, this`pre, this`succ, this`insertBlock, this`nextId, this`avail
      ensures Snap() == Checked(old(Snap()), val) && contBB == old(blocks) + 1 && Mirrored(blocks, term, pre, succ)
    {
      hide Certified, Mirrored, AvailNow, CodeOk, Create, Compared, Checked, Append, Branch;
      ghost var c := Snap();
      CheckSteps(c, val);
      var exceptBB := NewBlock();
      contBB := NewBlock();
      var isNeg := Res(nextId);
      Emit1(Op(nextId, Icmp(Lt), [val, Const(0)]));
      assert Snap() == Compared(c, val);
      CreateCondBr(isNeg, exceptBB, contBB);
      SetInsertPoint(exceptBB);
    }

    /** The report, and on to where the index was found good. */
    method Report(contBB: Block, ghost c: Code, ghost val: Val)
      requires CodeOk(c) && Snap() == Checked(c, val) && CodeOk(Snap()) && insertBlock !in term && Mirrored(blocks, term, pre, succ)
      requires contBB == c.count + 1 && CodeOk(Reported(c, val)) && Reported(c, val).cur !in Reported(c, val).term
      modifies this`body, this`term, this`insertBlock, this`nextId
      ensures Snap() == Guarded(c, val, isVoid) && Mirrored(blocks, term, pre, succ)
    {
      hide Mirrored, AvailNow, CodeOk, Create, Compared, Checked, Reported, Guarded, Append, Branch;
      ReportSteps(c, val, isVoid);
      Emit1(Op(nextId, Call(Ast.NEG_IDX_EXCEPT), []));
      CreateRet(if isVoid then None else Some(Const(0)));
      SetInsertPoint(contBB);
    }

    /** The element's address, after the check. */
    method Locate(b: Binding, val: Val, ghost base: Code, ghost g: Code) returns (ptr: Val)
      requires g == Snap() && CodeOk(g) && insertBlock !in term && Mirrored(blocks, term, pre, succ) && Straight(base, g)
      requires b.PtrSlot? || b.ArrayBase?
      modifies this`body, this`nextId
      ensures Snap() == Located(g, b, val) && ptr == LocatedAt(g, b) && Mirrored(blocks, term, pre, succ) && Straight(base, Snap())
    {
      hide Mirrored, CodeOk;
      LocateStraight(base, g, b, val);
      match b
      case PtrSlot(x) =>
        var arrayLoad := Res(nextId);
        AppendOk(g, Load(nextId, x));
        Emit1(Load(nextId, x));
        ptr := Res(nextId);
        Emit1(Op(nextId, Gep, [arrayLoad, val]));
      case ArrayBase(a) =>
        ptr := Res(nextId);
        Emit1(Op(nextId, Gep, [a, Const(0), val]));
    }

    /** An expression; the value it leaves. */
    method VisitExpr(e: Ast.Expr) returns (v: Val)
      requires Open() && !requireLvalue && Typed(KindsOf(scope.inner), e)
      modifies this`blocks, this`body, this`term, this`pre, this`succ, this`insertBlock, this`nextId, this`avail, this`requireLvalue
      ensures Open() && !requireLvalue && Straight(old(Snap()), Snap())
      ensures ExprDone(old(Snap()), Snap(), scope.inner, isVoid, e, v)
      decreases e, 2
    {
      hide Good, ExprDone, AddressDone, CodeOk, Certified, Mirrored, AvailNow, Stage, Usable, ArgsDone, Straight;
      ghost var env, c0 := scope.inner, Snap();
      GoodCode(c0, env);
      match e {
        case Num(k) =>
          v := Const(k);
          NumDone(c0, env, isVoid, k);
          StraightRefl(c0);
        case VarRef(x) =>
          var r := VisitVar(x, None, e);
          v := r.v;
        case Index(x, i) =>
          var r := VisitVar(x, Some(i), e);
          v := r.v;
        case Assign(_, _) => v := VisitAssign(e);
        case AssignIndex(_, _, _) => v := VisitAssignIndex(e);
        case Relation(_, _, _) => v := VisitRelation(e);
        case Arith(_, _, _) => v := VisitArith(e);
        case CallTo(_, _) => v := VisitCall(e);
      }
    }

    /** The right-hand side first, then where it goes. */
    method VisitAssign(e: Ast.Expr) returns (v: Val)
      requires Open() && !requireLvalue && Typed(KindsOf(scope.inner), e) && e.Assign?
      modifies this`blocks, this`body, this`term, this`pre, this`succ, this`insertBlock, this`nextId, this`avail, this`requireLvalue
      ensures Open() && !requireLvalue && Straight(old(Snap()), Snap())
      ensures ExprDone(old(Snap()), Snap(), scope.inner, isVoid, e, v)
      decreases e, 1
    {
      hide Good, ExprDone, AddressDone, CodeOk, Certified, Mirrored, AvailNow, Stage, Usable, ArgsDone, Straight;
      ghost var env, c0 := scope.inner, Snap();
      GoodCode(c0, env);
      v := VisitExpr(e.rhs);
      ghost var c1 := Snap();
      DoneOpen(c0, c1, env, isVoid, e.rhs, v);
      KindLookup(env, e.name);
      requireLvalue := true;
      var place := VisitVar(e.name, None, e);
      AssignDone(c0, c1, env, isVoid, e.name, e.rhs, v);
      StraightEmit(c0, c1, WriteInstr(Ast.Lookup(env, e.name).value, c1.nextId, v));
      match place {
        case SlotAddress(s) => Emit1(Store(v, s));
        case Result(a) => Emit1(Op(nextId, StorePtr, [v, a]));
      }
      DoneOpen(c0, Snap(), env, isVoid, e, v);
    }

    method VisitAssignIndex(e: Ast.Expr) returns (v: Val)
      requires Open() && !requireLvalue && Typed(KindsOf(scope.inner), e) && e.AssignIndex?
      modifies this`blocks, this`body, this`term, this`pre, this`succ, this`insertBlock, this`nextId, this`avail, this`requireLvalue
      ensures Open() && !requireLvalue && Straight(old(Snap()), Snap())
      ensures ExprDone(old(Snap()), Snap(), scope.inner, isVoid, e, v)
      decreases e, 1
    {
      hide Good, ExprDone, AddressDone, CodeOk, Certified, Mirrored, AvailNow, Stage, Usable, ArgsDone, Straight;
      ghost var env, c0 := scope.inner, Snap();
      GoodCode(c0, env);
      v := VisitExpr(e.rhs);
      ghost var c1 := Snap();
      DoneOpen(c0, c1, env, isVoid, e.rhs, v);
      requireLvalue := true;
      var place := VisitVar(e.name, Some(e.index), e);
      ghost var c2 := Snap();
      AddressOpen(c1, c2, env, isVoid, e.name, e.index, place.v);
      AssignIndexDone(c0, c1, c2, env, isVoid, e.name, e.index, e.rhs, v, place.v);
      StraightBoth(c0, c1, c2, env);
      StraightEmit(c0, c2, Op(c2.nextId, StorePtr, [v, place.v]));
      Emit1(Op(nextId, StorePtr, [v, place.v]));
      DoneOpen(c0, Snap(), env, isVoid, e, v);
    }

    /** A comparison, widened to an integer. */
    method VisitRelation(e: Ast.Expr) returns (v: Val)
      requires Open() && !requireLvalue && Typed(KindsOf(scope.inner), e) && e.Relation?
      modifies this`blocks, this`body, this`term, this`pre, this`succ, this`insertBlock, this`nextId, this`avail, this`requireLvalue
      ensures Open() && !requireLvalue && Straight(old(Snap()), Snap())
      ensures ExprDone(old(Snap()), Snap(), scope.inner, isVoid, e, v)
      decreases e, 1
    {
      hide Good, ExprDone, AddressDone, CodeOk, Certified, Mirrored, AvailNow, Stage, Usable, ArgsDone, Straight;
      ghost var env, c0 := scope.inner, Snap();
      GoodCode(c0, env);
      var vl := VisitExpr(e.left);
      ghost var c1 := Snap();
      DoneOpen(c0, c1, env, isVoid, e.left, vl);
      var vr := VisitExpr(e.right);
      ghost var c2 := Snap();
      DoneOpen(c1, c2, env, isVoid, e.right, vr);
      RelationDone(c0, c1, c2, env, isVoid, e.cmp, e.left, vl, e.right, vr);
      StraightBoth(c0, c1, c2, env);
      v := Compare(e.cmp, vl, vr, c0);
      DoneOpen(c0, Snap(), env, isVoid, e, v);
    }

    /** The comparison, and an integer that says how it came out. */
    method Compare(cmp: Comparison, vl: Val, vr: Val, ghost c0: Code) returns (v: Val)
      requires CodeOk(Snap()) && insertBlock !in term && Mirrored(blocks, term, pre, succ) && Straight(c0, Snap())
      modifies this`body, this`nextId
      ensures var c := old(Snap());
              && Snap() == Append(Append(c, Op(c.nextId, Icmp(cmp), [vl, vr])), Op(c.nextId + 1, Zext, [Res(c.nextId)]))
              && v == Res(c.nextId + 1)
      ensures Mirrored(blocks, term, pre, succ) && Straight(c0, Snap())
    {
      hide CodeOk, Mirrored, Straight;
      ghost var c := Snap();
      ghost var c3 := Append(c, Op(c.nextId, Icmp(cmp), [vl, vr]));
      AppendOk(c, Op(c.nextId, Icmp(cmp), [vl, vr]));
      StraightEmit(c0, c, Op(c.nextId, Icmp(cmp), [vl, vr]));
      StraightEmit(c0, c3, Op(c3.nextId, Zext, [Res(c.nextId)]));
      var cmpVal := Res(nextId);
      Emit1(Op(nextId, Icmp(cmp), [vl, vr]));
      v := Res(nextId);
      Emit1(Op(nextId, Zext, [cmpVal]));
    }

    method VisitArith(e: Ast.Expr) returns (v: Val)
      requires Open() && !requireLvalue && Typed(KindsOf(scope.inner), e) && e.Arith?
      modifies this`blocks, this`body, this`term, this`pre, this`succ, this`insertBlock, this`nextId, this`avail, this`requireLvalue
      ensures Open() && !requireLvalue && Straight(old(Snap()), Snap())
      ensures ExprDone(old(Snap()), Snap(), scope.inner, isVoid, e, v)
      ensures e.op.Plus? ==> LastGives(Snap(), Add, v)
      ensures e.op.Minus? ==> LastGives(Snap(), Sub, v)
      ensures e.op.Times? ==> LastGives(Snap(), Mul, v)
      ensures e.op.Over? ==> LastGives(Snap(), Sdiv, v)
      decreases e, 1
    {
      hide Good, ExprDone, AddressDone, CodeOk, Certified, Mirrored, AvailNow, Stage, Usable, ArgsDone, Straight, LastGives, Append;
      ghost var env, c0 := scope.inner, Snap();
      GoodCode(c0, env);
      var vl := VisitExpr(e.left);
      ghost var c1 := Snap();
      DoneOpen(c0, c1, env, isVoid, e.left, vl);
      var vr := VisitExpr(e.right);
      ghost var c2 := Snap();
      DoneOpen(c1, c2, env, isVoid, e.right, vr);
      ArithDone(c0, c1, c2, env, isVoid, e.op, e.left, vl, e.right, vr);
      StraightBoth(c0, c1, c2, env);
      StraightEmit(c0, c2, Op(c2.nextId, Ast.OpcodeOf(e.op), [vl, vr]));
      v := Res(nextId);
      Emit1(Op(nextId, Ast.OpcodeOf(e.op), [vl, vr]));
      AppendedGives(c2, Ast.OpcodeOf(e.op), [vl, vr]);
      DoneOpen(c0, Snap(), env, isVoid, e, v);
    }

    method VisitCall(e: Ast.Expr) returns (v: Val)
      requires Open() && !requireLvalue && Typed(KindsOf(scope.inner), e) && e.CallTo?
      modifies this`blocks, this`body, this`term, this`pre, this`succ, this`insertBlock, this`nextId, this`avail, this`requireLvalue
      ensures Open() && !requireLvalue && Straight(old(Snap()), Snap())
      ensures ExprDone(old(Snap()), Snap(), scope.inner, isVoid, e, v)
      decreases e, 1
    {
      hide Good, ExprDone, AddressDone, CodeOk, Certified, Mirrored, AvailNow, Stage, Usable, ArgsDone, Straight, Typed, KindsOf, Ast.Lookup, Append;
      ghost var env, c0 := scope.inner, Snap();
      GoodCode(c0, env);
      CallTyped(env, e);
      var func := scope.FindName(e.name);
      var vs := VisitArgs(e.args, e);
      ghost var c1 := Snap();
      ArgsFacts(c0, c1, env, isVoid, e.args, vs);
      CallDone(c0, c1, env, isVoid, e.name, e.args, vs);
      StraightEmit(c0, c1, Op(c1.nextId, Call(func.callee), vs));
      v := Res(nextId);
      Emit1(Op(nextId, Call(func.callee), vs));
      DoneOpen(c0, Snap(), env, isVoid, e, v);
    }

    /** The arguments of a call, from left to right. */
    method VisitArgs(args: seq<Ast.Expr>, ghost whole: Ast.Expr) returns (vs: seq<Val>)
      requires Open() && !requireLvalue && forall a | a in args :: Typed(KindsOf(scope.inner), a) && a < whole
      modifies this`blocks, this`body, this`term, this`pre, this`succ, this`insertBlock, this`nextId, this`avail, this`requireLvalue
      ensures Open() && !requireLvalue && Straight(old(Snap()), Snap())
      ensures ArgsDone(old(Snap()), Snap(), scope.inner, isVoid, args, vs)
      decreases whole, 0
    {
      hide Good, ExprDone, CodeOk, Certified, Mirrored, AvailNow, Stage, Usable, ArgsDone, Typed, Straight;
      ghost var env, c0 := scope.inner, Snap();
      GoodCode(c0, env);
      vs := [];
      ArgsNone(c0, env, isVoid);
      StraightRefl(c0);
      var i := 0;
      assert args[..0] == [];
      while i < |args|
        invariant 0 <= i <= |args| && Open() && !requireLvalue && scope.inner == env && isVoid == old(isVoid)
        invariant ArgsDone(c0, Snap(), env, isVoid, args[..i], vs) && Straight(c0, Snap())
      {
        ghost var c1 := Snap();
        var arg := args[i];
        assert arg in args;
        var v := VisitExpr(arg);
        ArgsFacts(c0, c1, env, isVoid, args[..i], vs);
        DoneFacts(c1, Snap(), env, isVoid, arg, v);
        ArgsNext(c0, c1, Snap(), env, isVoid, args[..i], vs, arg, v);
        StraightBoth(c0, c1, Snap(), env);
        assert args[..i + 1] == args[..i] + [arg];
        vs := vs + [v];
        i := i + 1;
      }
      assert args[..i] == args;
    }

    // ----- statements -----

    /** Comparing a condition with zero; the blocks for what comes next. */
    method TestCondition(v: Val, hasElse: bool) returns (contBB: Block, falseBB: Block)
      requires CodeOk(Snap()) && insertBlock !in term && Mirrored(blocks, term, pre, succ)
      requires var c := Snap();
               && CodeOk(Compared0(c, v)) && Compared0(c, v).cur !in Compared0(c, v).term
               && CodeOk(Opened(c, v, hasElse)) && Opened(c, v, hasElse).cur !in Opened(c, v, hasElse).term
               && Opened(c, v, hasElse).count == c.count + (if hasElse then 3 else 2)
      modifies this`blocks, this`body, this`term, this`pre, this`succ, this`insertBlock, this`nextId, this`avail
      ensures Snap() == Tested(old(Snap()), v, hasElse) && Mirrored(blocks, term, pre, succ)
      ensures contBB == old(blocks) + 1 && falseBB == old(blocks) + 2
    {
      hide Certified, Mirrored, AvailNow, CodeOk, Create, Compared0, Opened, Tested, Append, Branch;
      ghost var c := Snap();
      TestSteps(c, v, hasElse);
      var trueBB := NewBlock();
      contBB := NewBlock();
      var condVal := Res(nextId);
      Emit1(Op(nextId, Icmp(Ne), [v, Const(0)]));
      falseBB := contBB + 1;
      if !hasElse {
        CreateCondBr(condVal, trueBB, contBB);
      } else {
        falseBB := NewBlock();
        CreateCondBr(condVal, trueBB, falseBB);
      }
      SetInsertPoint(trueBB);
    }

    /** A condition, compared with zero. */
    method VisitCondition(cond: Ast.Expr, hasElse: bool) returns (ghost v: Val, ghost c1: Code, contBB: Block, falseBB: Block)
      requires Open() && !requireLvalue && Typed(KindsOf(scope.inner), cond)
      modifies this`blocks, this`body, this`term, this`pre, this`succ, this`insertBlock, this`nextId, this`avail, this`requireLvalue
      ensures ExprDone(old(Snap()), c1, scope.inner, isVoid, cond, v) && Straight(old(Snap()), c1) && CodeOk(c1)
      ensures Snap() == Tested(c1, v, hasElse) && CodeOk(Snap()) && Open() && !requireLvalue
      ensures contBB == c1.count + 1 && falseBB == c1.count + 2
      decreases cond, 3
    {
      hide Good, CodeOk, Certified, Mirrored, AvailNow, ExprDone, Straight, Tested, Compared0, Opened, Typed, KindsOf, Grew;
      ghost var env, c0 := scope.inner, Snap();
      GoodCode(c0, env);
      var retVal := VisitExpr(cond);
      v, c1 := retVal, Snap();
      DoneOpen(c0, c1, env, isVoid, cond, retVal);
      DoneTested(c0, c1, env, isVoid, cond, retVal, hasElse);
      contBB, falseBB := TestCondition(retVal, hasElse);
    }

    /** Unless a return has ended the block. */
    method Join(target: Block, next: Block)
      requires CodeOk(Snap()) && Mirrored(blocks, term, pre, succ) && 0 <= target < blocks
      modifies this`term, this`pre, this`succ, this`insertBlock
      ensures Snap() == JoinTo(old(Snap()), target, next) && Mirrored(blocks, term, pre, succ)
    {
      hide Mirrored, CodeOk;
      if insertBlock !in term {
        CreateBr(target);
      }
      SetInsertPoint(next);
    }

    method VisitVarDeclaration(d: Ast.Decl)
      requires CodeOk(Snap()) && insertBlock !in term && Mirrored(blocks, term, pre, succ) && scope.inner != []
      modifies this`body, this`nextId, this`nextSlot, scope
      ensures Snap() == DeclCode(old(Snap()), d) && Mirrored(blocks, term, pre, succ)
      ensures scope.inner == Ast.Declare(old(scope.inner), d.name, BindingOf(old(Snap()), d))
    {
      hide Mirrored, CodeOk;
      if d.isArray {
        var arr := Res(nextId);
        Emit1(Op(nextId, Alloca(d.site), []));
        var ok := scope.Push(d.name, ArrayBase(arr));
      } else {
        var alloca := nextSlot;
        nextSlot := nextSlot + 1;
        var ok := scope.Push(d.name, IntSlot(alloca));
      }
    }

    method VisitDeclarations(decls: seq<Ast.Decl>)
      requires Open() && scope.inner != []
      modifies this`body, this`nextId, this`nextSlot, scope
      ensures CodeOk(Snap()) && insertBlock !in term && Mirrored(blocks, term, pre, succ)
      ensures DeclsDone(old(Snap()), Snap(), old(scope.inner), scope.inner, decls) && Straight(old(Snap()), Snap())
      ensures var env := old(scope.inner); |scope.inner| == |env| && scope.inner[..|env| - 1] == env[..|env| - 1]
      ensures KindsOf(scope.inner) == DeclareKinds(KindsOf(old(scope.inner)), decls)
    {
      hide Good, CodeOk, Certified, Mirrored, AvailNow, DeclsDone, Straight, Grew, Ast.Declare, KindsOf;
      ghost var env, c0 := scope.inner, Snap();
      GoodCode(c0, env);
      DeclsNone(c0, env);
      StraightRefl(c0);
      var i := 0;
      assert decls[..0] == [];
      while i < |decls|
        invariant 0 <= i <= |decls| && insertBlock !in term && CodeOk(Snap()) && Mirrored(blocks, term, pre, succ)
        invariant DeclsDone(c0, Snap(), env, scope.inner, decls[..i]) && Straight(c0, Snap())
        invariant |scope.inner| == |env| && scope.inner[..|env| - 1] == env[..|env| - 1]
        invariant KindsOf(scope.inner) == DeclareKinds(KindsOf(env), decls[..i])
      {
        ghost var c, now := Snap(), scope.inner;
        var decl := decls[i];
        DeclsNext(c0, c, env, now, decls[..i], decl);
        DeclareStays(env, now, decl.name, BindingOf(c, decl));
        KindDeclare(now, decl.name, BindingOf(c, decl));
        StraightDecl(c0, c, decl);
        assert decls[..i + 1] == decls[..i] + [decl];
        DeclsCode(c0, DeclCode(c, decl), env, Ast.Declare(now, decl.name, BindingOf(c, decl)), decls[..i + 1]);
        VisitVarDeclaration(decl);
        i := i + 1;
      }
      assert decls[..i] == decls;
    }

    /** Statements up to one that ends the block. */
    method VisitStatements(stmts: seq<Ast.Stmt>)
      requires CodeOk(Snap()) && insertBlock !in term && Mirrored(blocks, term, pre, succ) && Good(Snap(), scope.inner)
      requires !requireLvalue && !preEnterScope && scope.inner != [] && forall s | s in stmts :: StmtTyped(KindsOf(scope.inner), isVoid, s)
      modifies this`blocks, this`body, this`term, this`pre, this`succ, this`insertBlock, this`nextId, this`nextSlot, this`avail
      modifies this`requireLvalue, this`preEnterScope, scope
      ensures CodeOk(Snap()) && Mirrored(blocks, term, pre, succ) && !requireLvalue && !preEnterScope && scope.inner == old(scope.inner)
      ensures ListDone(old(Snap()), Snap(), scope.inner, isVoid, stmts) && ListFormed(old(Snap()), Snap(), stmts)
      decreases stmts, 0
    {
      hide Good, CodeOk, Certified, Mirrored, AvailNow, Stage, Phase, ListDone, StmtDone, Straight, ListFormed, StmtFormed, StmtTyped, Grew, KindsOf;
      ghost var env, c1 := scope.inner, Snap();
      ListNone(c1, env, isVoid);
      StraightRefl(c1);
      var j := 0;
      assert stmts[..0] == [];
      while j < |stmts| && insertBlock !in term
        invariant 0 <= j <= |stmts| && CodeOk(Snap()) && Mirrored(blocks, term, pre, succ) && scope.inner == env
        invariant isVoid == old(isVoid) && !requireLvalue && !preEnterScope
        invariant ListDone(c1, Snap(), env, isVoid, stmts[..j]) && ListFormed(c1, Snap(), stmts[..j])
      {
        ghost var c := Snap();
        var stmt := stmts[j];
        assert stmt in stmts;
        ListOpen(c1, c, env, isVoid, stmts[..j]);
        VisitStmt(stmt);
        ListNext(c1, c, Snap(), env, isVoid, stmts[..j], stmt);
        ListGoesOn(c1, c, Snap(), env, isVoid, stmts[..j], stmt);
        assert stmts[..j + 1] == stmts[..j] + [stmt];
        j := j + 1;
      }
      if j < |stmts| {
        ListStops(c1, Snap(), env, isVoid, stmts, j);
        ListFormedStops(c1, Snap(), stmts, j);
      }
      assert stmts[..|stmts|] == stmts;
    }

    /** The declarations of a compound statement, then its statements.
        The outermost one uses the scope of the parameters, which has been entered already. */
    method VisitCompoundStmt(decls: seq<Ast.Decl>, stmts: seq<Ast.Stmt>) returns (ghost c1: Code, ghost env2: Env)
      requires Open() && !requireLvalue && scope.inner != []
      requires forall s | s in stmts ::
                 StmtTyped(DeclareKinds(KindsOf(if preEnterScope then scope.inner else scope.inner + [map[]]), decls), isVoid, s)
      modifies this`blocks, this`body, this`term, this`pre, this`succ, this`insertBlock, this`nextId, this`nextSlot, this`avail
      modifies this`requireLvalue, this`preEnterScope, scope
      ensures CodeOk(Snap()) && Mirrored(blocks, term, pre, succ) && !requireLvalue && !preEnterScope
      ensures scope.inner == if old(preEnterScope) then env2 else old(scope.inner)
      ensures var env := if old(preEnterScope) then old(scope.inner) else old(scope.inner) + [map[]];
              && DeclsDone(old(Snap()), c1, env, env2, decls) && ListDone(c1, Snap(), env2, isVoid, stmts)
              && |env2| == |env| && env2[..|env| - 1] == env[..|env| - 1]
      ensures Straight(old(Snap()), c1) && ListFormed(c1, Snap(), stmts)
      decreases stmts, 1
    {
      hide Good, CodeOk, Certified, Mirrored, AvailNow, DeclsDone, ListDone, Straight, ListFormed, StmtTyped, Grew, KindsOf;
      ghost var env0, c0 := scope.inner, Snap();
      GoodCode(c0, env0);
      var needExitScope := !preEnterScope;
      if preEnterScope {
        preEnterScope := false;
      } else {
        PushGood(c0, env0);
        scope.Enter();
      }
      ghost var env := scope.inner;
      VisitDeclarations(decls);
      c1, env2 := Snap(), scope.inner;
      DeclsCode(c0, c1, env, env2, decls);
      VisitStatements(stmts);
      if needExitScope {
        scope.Exit();
      }
    }

    method VisitStmt(s: Ast.Stmt)
      requires Open() && !requireLvalue && !preEnterScope && scope.inner != [] && StmtTyped(KindsOf(scope.inner), isVoid, s)
      modifies this`blocks, this`body, this`term, this`pre, this`succ, this`insertBlock, this`nextId, this`nextSlot, this`avail
      modifies this`requireLvalue, this`preEnterScope, scope
      ensures CodeOk(Snap()) && Mirrored(blocks, term, pre, succ) && !requireLvalue && !preEnterScope && scope.inner == old(scope.inner)
      ensures StmtDone(old(Snap()), Snap(), scope.inner, isVoid, s) && StmtFormed(old(Snap()), Snap(), s)
      decreases s, 2
    {
      hide Good, CodeOk, Certified, Mirrored, AvailNow, Stage, Phase, DeclsDone, ListDone, ExprDone, StmtDone, Straight, StmtFormed, ListFormed, Usable;
      ghost var env, c0 := scope.inner, Snap();
      GoodCode(c0, env);
      match s {
        case Expression(None) =>
          NothingDone(c0, env, isVoid);
          StraightRefl(c0);
          ExpressionFormed(c0, Snap(), None);
        case Expression(Some(e)) =>
          var v := VisitExpr(e);
          DoneOpen(c0, Snap(), env, isVoid, e, v);
          ExpressionDone(c0, Snap(), env, isVoid, e, v);
          ExpressionFormed(c0, Snap(), Some(e));
        case Compound(decls, stmts) =>
          CompoundKinds(env, isVoid, decls, stmts);
          ghost var c1, env2 := VisitCompoundStmt(decls, stmts);
          assert (env + [map[]])[..|env|] == env;
          CompoundDone(c0, c1, Snap(), env, env2, isVoid, decls, stmts);
          CompoundEnds(c0, c1, Snap(), env, env2, isVoid, decls, stmts);
        case If(_, _, _) => VisitSelectionStmt(s);
        case While(_, _) => VisitIterationStmt(s);
        case Return(_) => VisitReturnStmt(s);
      }
    }

    method VisitReturnStmt(s: Ast.Stmt)
      requires Open() && !requireLvalue && !preEnterScope && scope.inner != [] && StmtTyped(KindsOf(scope.inner), isVoid, s) && s.Return?
      modifies this`blocks, this`body, this`term, this`pre, this`succ, this`insertBlock, this`nextId, this`nextSlot, this`avail
      modifies this`requireLvalue, this`preEnterScope, scope
      ensures CodeOk(Snap()) && Mirrored(blocks, term, pre, succ) && !requireLvalue && !preEnterScope && scope.inner == old(scope.inner)
      ensures StmtDone(old(Snap()), Snap(), scope.inner, isVoid, s) && StmtFormed(old(Snap()), Snap(), s)
      decreases s, 1
    {
      hide Good, CodeOk, Certified, Mirrored, AvailNow, Stage, Phase, ExprDone, StmtDone, Straight, StmtFormed, Usable;
      ghost var env, c0 := scope.inner, Snap();
      GoodCode(c0, env);
      if s.val.None? {
        ReturnNoneDone(c0, env, isVoid);
        StraightRefl(c0);
        GrewRefl(c0);
        ReturnFormed(c0, c0, s, None);
        CreateRet(None);
        StmtCodes(c0, Snap(), env, isVoid, s);
      } else {
        var retVal := VisitExpr(s.val.value);
        ghost var c1 := Snap();
        DoneOpen(c0, c1, env, isVoid, s.val.value, retVal);
        ReturnDone(c0, c1, env, isVoid, s.val.value, retVal);
        DoneGrew(c0, c1, env, isVoid, s.val.value, retVal);
        ReturnFormed(c0, c1, s, Some(retVal));
        CreateRet(Some(retVal));
        StmtCodes(c0, Snap(), env, isVoid, s);
      }
    }

    method VisitSelectionStmt(s: Ast.Stmt)
      requires Open() && !requireLvalue && !preEnterScope && scope.inner != [] && StmtTyped(KindsOf(scope.inner), isVoid, s) && s.If?
      modifies this`blocks, this`body, this`term, this`pre, this`succ, this`insertBlock, this`nextId, this`nextSlot, this`avail
      modifies this`requireLvalue, this`preEnterScope, scope
      ensures CodeOk(Snap()) && Mirrored(blocks, term, pre, succ) && !requireLvalue && !preEnterScope && scope.inner == old(scope.inner)
      ensures StmtDone(old(Snap()), Snap(), scope.inner, isVoid, s) && StmtFormed(old(Snap()), Snap(), s)
      decreases s, 1
    {
      hide Good, CodeOk, Certified, Mirrored, ExprDone, StmtDone, Straight, StmtFormed, Tested, JoinTo, StmtTyped, Typed, KindsOf;
      ghost var env, c0 := scope.inner, Snap();
      GoodCode(c0, env);
      PartsTyped(KindsOf(env), isVoid, s);
      ghost var retVal, c1;
      var contBB, falseBB;
      retVal, c1, contBB, falseBB := VisitCondition(s.cond, s.no.Some?);
      VisitStmt(s.yes);
      ghost var c5 := Snap();
      if s.no.None? {
        IfEnds(c0, c1, c5, env, isVoid, s.cond, retVal, s.yes);
      } else {
        ElseStarts(c0, c1, c5, env, isVoid, s.cond, retVal, s.yes);
        VisitElse(s.no.value, contBB, falseBB);
        ElseEnds(c0, c1, c5, Snap(), env, isVoid, s.cond, retVal, s.yes, s.no.value);
      }
      Join(contBB, contBB);
    }

    /** The second branch. */
    method VisitElse(no: Ast.Stmt, contBB: Block, falseBB: Block)
      requires CodeOk(Snap()) && Mirrored(blocks, term, pre, succ) && 0 <= contBB < blocks
      requires var c := JoinTo(Snap(), contBB, falseBB); CodeOk(c) && Good(c, scope.inner) && c.cur !in c.term
      requires !requireLvalue && !preEnterScope && scope.inner != [] && StmtTyped(KindsOf(scope.inner), isVoid, no)
      modifies this`blocks, this`body, this`term, this`pre, this`succ, this`insertBlock, this`nextId, this`nextSlot, this`avail
      modifies this`requireLvalue, this`preEnterScope, scope
      ensures CodeOk(Snap()) && Mirrored(blocks, term, pre, succ) && !requireLvalue && !preEnterScope && scope.inner == old(scope.inner)
      ensures var c := JoinTo(old(Snap()), contBB, falseBB); StmtDone(c, Snap(), scope.inner, isVoid, no) && StmtFormed(c, Snap(), no)
      decreases no, 3
    {
      hide Good, CodeOk, Mirrored, StmtDone, StmtFormed, StmtTyped, JoinTo;
      Join(contBB, falseBB);
      VisitStmt(no);
    }

    /** The block that a loop comes back to. */
    method StartLoop() returns (exprBB: Block)
      requires Open()
      modifies this`blocks, this`body, this`term, this`pre, this`succ, this`insertBlock, this`avail
      ensures exprBB == old(blocks) && CodeOk(old(Snap())) && Snap() == Headed(old(Snap())) && Snap().count == exprBB + 1 && Open()
    {
      hide Good, CodeOk, Certified, Mirrored, AvailNow, Headed, Create;
      HeadSteps(Snap(), scope.inner);
      exprBB := NewBlock();
      if insertBlock !in term {
        CreateBr(exprBB);
      }
      SetInsertPoint(exprBB);
    }

    method VisitIterationStmt(s: Ast.Stmt)
      requires Open() && !requireLvalue && !preEnterScope && scope.inner != [] && StmtTyped(KindsOf(scope.inner), isVoid, s) && s.While?
      modifies this`blocks, this`body, this`term, this`pre, this`succ, this`insertBlock, this`nextId, this`nextSlot, this`avail
      modifies this`requireLvalue, this`preEnterScope, scope
      ensures CodeOk(Snap()) && Mirrored(blocks, term, pre, succ) && !requireLvalue && !preEnterScope && scope.inner == old(scope.inner)
      ensures StmtDone(old(Snap()), Snap(), scope.inner, isVoid, s) && StmtFormed(old(Snap()), Snap(), s)
      decreases s, 1
    {
      hide Good, CodeOk, Certified, Mirrored, ExprDone, StmtDone, Straight, StmtFormed, Tested, JoinTo, Headed, StmtTyped, Typed, KindsOf;
      ghost var env, c0 := scope.inner, Snap();
      GoodCode(c0, env);
      PartsTyped(KindsOf(env), isVoid, s);
      var exprBB := StartLoop();
      ghost var retVal, c3;
      var contBB, falseBB;
      retVal, c3, contBB, falseBB := VisitCondition(s.cond, false);
      VisitStmt(s.body);
      WhileEnds(c0, c3, Snap(), env, isVoid, s.cond, retVal, s.body);
      Join(exprBB, contBB);
    }

    // ----- functions -----

    /** A parameter gets an alloca of its own, with the argument stored in it. */
    method VisitParam(i: nat, p: Ast.Param)
      requires CodeOk(Snap()) && insertBlock !in term && Mirrored(blocks, term, pre, succ) && scope.inner != []
      modifies this`body, this`nextId, this`nextSlot, scope
      ensures Snap() == ParamCode(old(Snap()), i) && Mirrored(blocks, term, pre, succ)
      ensures scope.inner == Ast.Declare(old(scope.inner), p.name, ParamBinding(old(Snap()), p))
    {
      hide Mirrored;
      var alloc := nextSlot;
      nextSlot := nextSlot + 1;
      Emit1(Store(Arg(i), alloc));
      var ok := scope.Push(p.name, if p.isArray then PtrSlot(alloc) else IntSlot(alloc));
    }

    method VisitParams(params: seq<Ast.Param>)
      requires Open() && scope.inner != []
      modifies this`body, this`nextId, this`nextSlot, scope
      ensures CodeOk(Snap()) && insertBlock !in term && Mirrored(blocks, term, pre, succ)
      ensures ParamsDone(old(Snap()), Snap(), old(scope.inner), scope.inner, params) && Straight(old(Snap()), Snap())
      ensures var env := old(scope.inner); |scope.inner| == |env| && scope.inner[..|env| - 1] == env[..|env| - 1]
      ensures KindsOf(scope.inner) == ParamKinds(KindsOf(old(scope.inner)), params)
    {
      hide Good, CodeOk, Certified, Mirrored, AvailNow, Stage, ParamsDone, Straight, Grew, Ast.Declare, KindsOf;
      ghost var env, c0 := scope.inner, Snap();
      GoodCode(c0, env);
      ParamsNone(c0, env);
      StraightRefl(c0);
      var i := 0;
      assert params[..0] == [];
      while i < |params|
        invariant 0 <= i <= |params| && insertBlock !in term && CodeOk(Snap()) && Mirrored(blocks, term, pre, succ)
        invariant ParamsDone(c0, Snap(), env, scope.inner, params[..i]) && Straight(c0, Snap())
        invariant |scope.inner| == |env| && scope.inner[..|env| - 1] == env[..|env| - 1]
        invariant KindsOf(scope.inner) == ParamKinds(KindsOf(env), params[..i])
      {
        ghost var c, now := Snap(), scope.inner;
        var p := params[i];
        ParamsNext(c0, c, env, now, params[..i], p);
        DeclareStays(env, now, p.name, ParamBinding(c, p));
        KindDeclare(now, p.name, ParamBinding(c, p));
        StraightParam(c0, c, i);
        assert params[..i + 1] == params[..i] + [p];
        ParamsCode(c0, ParamCode(c, i), env, Ast.Declare(now, p.name, ParamBinding(c, p)), params[..i + 1]);
        VisitParam(i, p);
        i := i + 1;
      }
      assert params[..i] == params;
    }

    /** A new function: an entry block, and nothing else yet. */
    method StartFunction(void: bool)
      modifies this, scope
      ensures Snap() == StartCode() && Mirrored(blocks, term, pre, succ)
      ensures scope.inner == old(scope.inner) + [map[]] && isVoid == void && preEnterScope && requireLvalue == old(requireLvalue)
    {
      hide Good, Mirrored, CodeOk;
      MirrorStart(map[0 := []], map[0 := []]);
      isVoid := void;
      blocks, insertBlock, nextId, nextSlot := 1, 0, 0, 0;
      body, term, pre, succ := map[0 := []], map[], map[0 := []], map[0 := []];
      avail := map[0 := {}];
      scope.Enter();
      preEnterScope := true;
    }

    /** A global is known by its address. */
    method VisitGlobal(name: Name, address: Val, isArray: bool)
      requires GlobalScope(scope.inner) && !address.Res?
      modifies scope
      ensures GlobalScope(scope.inner)
      ensures scope.inner == Ast.Declare(old(scope.inner), name, if isArray then ArrayBase(address) else GlobalVar(address))
    {
      var ok := scope.Push(name, if isArray then ArrayBase(address) else GlobalVar(address));
    }

    /** The blocks of a function: what they are for the later passes, and what they do. */
    method VisitFunDeclaration(name: Name, callee: int, d: Ast.FunDecl)
      requires GlobalScope(scope.inner) && !requireLvalue && FunctionTyped(Ast.Declare(scope.inner, name, FnName(callee)), d)
      modifies this, scope
      ensures scope.inner == Ast.Declare(old(scope.inner), name, FnName(callee)) && GlobalScope(scope.inner) && !requireLvalue
      ensures Built(d, scope.inner, Snap()) && Complete(Snap(), pre, succ)
      ensures Shape(StartCode(), Snap(), Stopped, AllReachedList(d.stmts), SealedList(d.stmts)) && Ordered(StartCode(), Snap())
    {
      hide Good, CodeOk, Certified, Mirrored, AvailNow, Stage, Phase, ParamsDone, DeclsDone, ListDone, Straight, ListFormed, Formed, Shape, Ordered, Grew, KindsOf, StmtTyped, Ended, Built, Complete,
        StartCode, Closed, SealedList, AllReachedList, ParamKinds, DeclareKinds;
      var ok := scope.Push(name, FnName(callee));
      ghost var globals := scope.inner;
      StartGood(globals);
      StartFunction(d.isVoid);
      ghost var start, env := Snap(), scope.inner;
      VisitParams(d.params);
      ghost var c1, env1 := Snap(), scope.inner;
      ParamsCode(start, c1, env, env1, d.params);
      ghost var c2, env2 := VisitCompoundStmt(d.decls, d.stmts);
      ghost var c3 := Snap();
      FunctionFormed(c1, c2, c3, env, env1, env2, d);
      EndedComplete(d, globals, c1, c2, c3, env1, env2, pre, succ);
      if insertBlock !in term {
        CreateRet(if isVoid then None else Some(Const(0)));
      }
      EndedIs(c3, d.isVoid);
      assert Snap() == Ended(c3, d.isVoid);
      assert (globals + [map[]])[..|globals|] == globals;
      scope.Exit();
    }

    /** The function that was built last. */
    method Finished() returns (f: Func)
      requires forall b :: b in body <==> 0 <= b < blocks
      ensures f == FuncOf(Snap(), pre, succ)
    {
      f := Func(Graph(0, seq(blocks, i => i), pre, succ), map b | b in body :: [], body, term);
    }
  }

  /** Every name in the body is used for what it is. */
  ghost predicate FunctionTyped(env: Env, d: Ast.FunDecl) {
    forall s | s in d.stmts :: StmtTyped(DeclareKinds(ParamKinds(KindsOf(env + [map[]]), d.params), d.decls), d.isVoid, s)
  }

  lemma EndedIs(c: Code, isVoid: bool)
    ensures c.cur in c.term ==> Ended(c, isVoid) == c
    ensures c.cur !in c.term ==> Ended(c, isVoid) == Branch(c, Ret(if isVoid then None else Some(Const(0))), c.cur)
  {
  }

  lemma FunctionFormed(c1: Code, c2: Code, c3: Code, env: Env, env1: Env, env2: Env, d: Ast.FunDecl)
    requires ParamsDone(StartCode(), c1, env, env1, d.params) && DeclsDone(c1, c2, env1, env2, d.decls) && ListDone(c2, c3, env2, d.isVoid, d.stmts)
    requires Straight(StartCode(), c1) && Straight(c1, c2) && ListFormed(c2, c3, d.stmts)
    ensures Closed(StartCode(), c3)
    ensures Shape(StartCode(), Ended(c3, d.isVoid), Stopped, AllReachedList(d.stmts), SealedList(d.stmts))
    ensures Ordered(StartCode(), Ended(c3, d.isVoid))
  {
    hide Ordered, ParamsDone, DeclsDone, ListDone, CodeOk, Good, Closed, Grew, StartCode, Shape;
    ParamsCode(StartCode(), c1, env, env1, d.params);
    DeclsCode(c1, c2, env1, env2, d.decls);
    ListGrew(c2, c3, env2, d.isVoid, d.stmts);
    GrewTrans(StartCode(), c1, c2);
    GrewTrans(StartCode(), c2, c3);
    FormedAfter(StartCode(), c1, c2, Going, true, true, Going, true, true);
    FormedAfter(StartCode(), c2, c3, Going, true, true, ExitOfAll(d.stmts), AllReachedList(d.stmts), SealedList(d.stmts));
    EndedLaid(StartCode(), c3, d.isVoid);
    EndedShape(StartCode(), c3, d.isVoid, ExitOfAll(d.stmts), AllReachedList(d.stmts), SealedList(d.stmts));
  }

  lemma ListGrew(c: Code, c': Code, env: Env, isVoid: bool, stmts: seq<Ast.Stmt>)
    requires ListDone(c, c', env, isVoid, stmts)
    ensures CodeOk(c) && CodeOk(c') && Grew(c, c')
  {
    hide Certified, EnvOk, EnvAvail, AvailNow, ListRuns;
  }

  lemma ParamsCode(c: Code, c': Code, env: Env, env': Env, params: seq<Ast.Param>)
    requires ParamsDone(c, c', env, env', params)
    ensures CodeOk(c) && CodeOk(c') && c'.cur !in c'.term && Good(c', env') && Grew(c, c') && |env'| == |env|
  {
    hide ParamsRuns, Good, Grew;
    StageFacts(c, c', env');
  }

  lemma GoodCode(c: Code, env: Env)
    requires Good(c, env)
    ensures CodeOk(c) && 0 < c.count && 0 <= c.cur < c.count
  {
  }

  lemma CallTyped(env: Env, e: Ast.Expr)
    requires Typed(KindsOf(env), e) && e.CallTo?
    ensures Ast.Lookup(env, e.name).Some? && Ast.Lookup(env, e.name).value.FnName? && forall a | a in e.args :: Typed(KindsOf(env), a)
  {
    KindLookup(env, e.name);
  }

  lemma DoneOpen(c: Code, c': Code, env: Env, isVoid: bool, e: Ast.Expr, v: Val)
    requires ExprDone(c, c', env, isVoid, e, v)
    ensures Stage(c, c', env) && Good(c', env) && CodeOk(c) && CodeOk(c') && Usable(c', v) && c'.cur !in c'.term
  {
    hide ExprRuns, Certified, AvailNow, EnvOk, EnvAvail;
  }

  lemma AddressOpen(c: Code, c': Code, env: Env, isVoid: bool, x: Name, i: Ast.Expr, v: Val)
    requires AddressDone(c, c', env, isVoid, x, i, v)
    ensures Stage(c, c', env) && Good(c', env) && CodeOk(c) && CodeOk(c') && Usable(c', v) && c'.cur !in c'.term
  {
    hide AddressRuns, Certified, AvailNow, EnvOk, EnvAvail;
  }

  lemma StraightBoth(c: Code, d: Code, e: Code, env: Env)
    requires Stage(c, d, env) && Stage(d, e, env) && Straight(c, d) && Straight(d, e)
    ensures Straight(c, e)
  {
    hide Certified, AvailNow, EnvOk, EnvAvail, Formed;
    FormedAfter(c, d, e, Going, true, true, Going, true, true);
  }

  lemma CreateNew(c: Code)
    requires CodeOk(c)
    ensures Create(c, 1) == c.(count := c.count + 1, body := c.body[c.count := []], avail := c.avail[c.count := AvailNow(c)])
  {
    hide AvailNow;
    assert Create(c, 1).body == c.body[c.count := []];
    assert Create(c, 1).avail == c.avail[c.count := AvailNow(c)];
  }

  lemma CreateSame(c: Code, n: nat)
    requires CodeOk(c)
    ensures Create(c, n).term == c.term && Create(c, n).cur == c.cur && Create(c, n).nextId == c.nextId
  {
    hide AvailNow;
  }

  /** Everything about the codes that the check goes through. */
  lemma GuardPrepared(base: Code, c: Code, env: Env, v: Val, isVoid: bool)
    requires Stage(base, c, env) && Usable(c, v) && base.cur !in base.term && Straight(base, c)
    ensures CodeOk(c) && c.cur !in c.term && CodeOk(Create(c, 1)) && Create(Create(c, 1), 1) == Create(c, 2) && CodeOk(Create(c, 2))
    ensures Create(c, 1).count == c.count + 1 && Create(c, 2).count == c.count + 2
    ensures Create(c, 2).term == c.term && Create(c, 2).cur == c.cur && Create(c, 2).nextId == c.nextId
    ensures CodeOk(Compared(c, v)) && CodeOk(Checked(c, v)) && CodeOk(Reported(c, v)) && CodeOk(Guarded(c, v, isVoid))
    ensures Compared(c, v).cur !in Compared(c, v).term && Checked(c, v).cur !in Checked(c, v).term
    ensures Reported(c, v).cur !in Reported(c, v).term && Guarded(c, v, isVoid).cur !in Guarded(c, v, isVoid).term
    ensures Straight(base, Guarded(c, v, isVoid))
  {
    hide Stage, CodeOk, Create, Compared, Checked, Reported, Guarded, Straight, AvailNow, Usable, Grew;
    StageFacts(base, c, env);
    StageGrew(base, c, env);
    GuardStages(base, c, env, v, isVoid);
    CreateMore(c, 1, 1);
    CreateCount(c, 1);
    CreateCount(c, 2);
    CreateOk(c, 1);
    CreateOk(c, 2);
    CreateSame(c, 2);
    StageFacts(base, Compared(c, v), env);
    StageFacts(base, Checked(c, v), env);
    StageFacts(base, Reported(c, v), env);
    StageFacts(base, Guarded(c, v, isVoid), env);
    GuardFromOpen(base, c, env, v, isVoid);
    GuardStraight(base, c, v, isVoid);
  }

  lemma GuardFromOpen(base: Code, c: Code, env: Env, v: Val, isVoid: bool)
    requires Stage(base, c, env) && Usable(c, v) && CodeOk(c)
    ensures Grew(c, Guarded(c, v, isVoid)) && c.cur !in c.term
  {
    hide CodeOk, Guarded, AvailNow, Usable, Certified, EnvOk, EnvAvail, Good, Grew;
    StageStart(c, env);
    GuardStages(c, c, env, v, isVoid);
    StageGrew(c, Guarded(c, v, isVoid), env);
  }

  /** The check, piece by piece. */
  lemma CheckSteps(c: Code, v: Val)
    requires CodeOk(c)
    ensures Append(Create(c, 2), Op(c.nextId, Icmp(Lt), [v, Const(0)])) == Compared(c, v)
    ensures Compared(c, v).count == Create(c, 2).count
    ensures Compared(c, v).(term := Compared(c, v).term[Compared(c, v).cur := CondBr(Res(c.nextId), c.count, c.count + 1)]).(cur := c.count)
            == Checked(c, v)
  {
    hide AvailNow;
    CreateSame(c, 2);
  }

  lemma ReportSteps(c: Code, v: Val, isVoid: bool)
    requires CodeOk(c)
    ensures Append(Checked(c, v), Op(c.nextId + 1, Call(Ast.NEG_IDX_EXCEPT), [])) == Reported(c, v) && Checked(c, v).nextId == c.nextId + 1
    ensures Branch(Reported(c, v), DefaultRet(isVoid), Reported(c, v).cur).(cur := c.count + 1) == Guarded(c, v, isVoid)
  {
    hide AvailNow;
    CreateSame(c, 2);
  }

  lemma StageGrew(base: Code, c: Code, env: Env)
    requires Stage(base, c, env)
    ensures Grew(base, c)
  {
    hide Certified, AvailNow, EnvOk, EnvAvail;
  }

  /** The test, piece by piece. */
  lemma TestSteps(c: Code, v: Val, hasElse: bool)
    requires CodeOk(c) && CodeOk(Compared0(c, v))
    ensures CodeOk(Create(c, 1)) && CodeOk(Create(c, 2)) && Create(Create(c, 1), 1) == Create(c, 2) && Create(c, 1).count == c.count + 1
    ensures Create(c, 2).term == c.term && Create(c, 2).cur == c.cur && Create(c, 2).nextId == c.nextId
    ensures Append(Create(c, 2), Op(c.nextId, Icmp(Ne), [v, Const(0)])) == Compared0(c, v) && Compared0(c, v).count == c.count + 2
    ensures Opened(c, v, hasElse) == if hasElse then Create(Compared0(c, v), 1) else Compared0(c, v)
    ensures var o := Opened(c, v, hasElse);
            o.(term := o.term[o.cur := CondBr(Res(c.nextId), c.count, Otherwise(c, hasElse))]).(cur := c.count) == Tested(c, v, hasElse)
  {
    hide AvailNow, CodeOk, Tested, Opened;
    CreateSteps(c);
    OpenedSteps(c, v, hasElse);
  }

  lemma CreateSteps(c: Code)
    requires CodeOk(c)
    ensures CodeOk(Create(c, 1)) && CodeOk(Create(c, 2)) && Create(Create(c, 1), 1) == Create(c, 2)
  {
    hide AvailNow;
    CreateOk(c, 1);
    CreateOk(c, 2);
    CreateMore(c, 1, 1);
    CreateSame(c, 2);
  }

  lemma OpenedSteps(c: Code, v: Val, hasElse: bool)
    requires CodeOk(c) && CodeOk(Compared0(c, v))
    ensures Opened(c, v, hasElse) == if hasElse then Create(Compared0(c, v), 1) else Compared0(c, v)
    ensures var o := Opened(c, v, hasElse);
            o.(term := o.term[o.cur := CondBr(Res(c.nextId), c.count, Otherwise(c, hasElse))]).(cur := c.count) == Tested(c, v, hasElse)
  {
    hide AvailNow, CodeOk, Create;
  }

  /** The loop head, piece by piece. */
  lemma HeadSteps(c: Code, env: Env)
    requires Good(c, env) && c.cur !in c.term
    ensures CodeOk(c) && CodeOk(Create(c, 1)) && Create(c, 1).cur == c.cur && Create(c, 1).term == c.term && Create(c, 1).count == c.count + 1
    ensures Create(c, 1).(term := c.term[c.cur := Br(c.count)]).(cur := c.count) == Headed(c)
    ensures CodeOk(Headed(c)) && Good(Headed(c), env) && Headed(c).cur !in Headed(c).term && Headed(c).count == c.count + 1
  {
    hide AvailNow, Good;
    HeadStage(c, env);
    StageFacts(c, Headed(c), env);
    CreateOk(c, 1);
    CreateSame(c, 1);
  }

  /** When the condition has been built, the test can be. */
  lemma DoneTested(c: Code, c1: Code, env: Env, isVoid: bool, e: Ast.Expr, v: Val, hasElse: bool)
    requires ExprDone(c, c1, env, isVoid, e, v) && c.cur !in c.term
    ensures CodeOk(c1) && CodeOk(Compared0(c1, v)) && Compared0(c1, v).cur !in Compared0(c1, v).term
    ensures CodeOk(Opened(c1, v, hasElse)) && Opened(c1, v, hasElse).cur !in Opened(c1, v, hasElse).term
    ensures Opened(c1, v, hasElse).count == c1.count + (if hasElse then 3 else 2)
    ensures var t := Tested(c1, v, hasElse); CodeOk(t) && Good(t, env) && t.cur !in t.term && t.count == c1.count + (if hasElse then 3 else 2)
    ensures Grew(c, c1) && CodeOk(c) && c.count <= c1.count
  {
    hide ExprDone, CodeOk, EnvOk, AvailNow, EnvAvail, Certified, TestReady, Compared0, Opened, Usable, Fresh;
    DoneFacts(c, c1, env, isVoid, e, v);
    DoneUsable(c, c1, env, isVoid, e, v);
    TestStages(c, c1, env, v, hasElse);
    TestFacts(c, c1, env, v, hasElse);
  }

  lemma StmtGrew(c: Code, c': Code, env: Env, isVoid: bool, s: Ast.Stmt)
    requires StmtDone(c, c', env, isVoid, s)
    ensures CodeOk(c) && CodeOk(c') && Grew(c, c') && c.count <= c'.count
  {
    hide Certified, EnvOk, EnvAvail, AvailNow, StmtRuns;
  }

  lemma StmtCodes(c: Code, c': Code, env: Env, isVoid: bool, s: Ast.Stmt)
    requires StmtDone(c, c', env, isVoid, s)
    ensures CodeOk(c) && CodeOk(c')
  {
    hide Phase, StmtRuns;
    StmtFacts(c, c', env, isVoid, s);
  }

  lemma DeclsCode(c: Code, c': Code, env: Env, env': Env, decls: seq<Ast.Decl>)
    requires DeclsDone(c, c', env, env', decls)
    ensures CodeOk(c) && CodeOk(c') && c'.cur !in c'.term && Good(c', env') && Grew(c, c') && |env'| == |env|
  {
    hide DeclsRuns, Good, Grew;
    StageFacts(c, c', env');
  }

  lemma ListOpen(c: Code, c': Code, env: Env, isVoid: bool, stmts: seq<Ast.Stmt>)
    requires ListDone(c, c', env, isVoid, stmts) && c'.cur !in c'.term
    ensures CodeOk(c) && CodeOk(c') && Good(c', env) && Grew(c, c')
  {
    hide Certified, EnvOk, EnvAvail, AvailNow, ListRuns;
  }

  lemma ListGoesOn(c1: Code, c: Code, c': Code, env: Env, isVoid: bool, stmts: seq<Ast.Stmt>, s: Ast.Stmt)
    requires ListDone(c1, c, env, isVoid, stmts) && c.cur !in c.term && StmtDone(c, c', env, isVoid, s)
    requires ListFormed(c1, c, stmts) && StmtFormed(c, c', s)
    ensures ListFormed(c1, c', stmts + [s]) && CodeOk(c')
  {
    hide ListDone, StmtDone, CodeOk, Good, Grew, ListFormed, StmtFormed;
    ListOpen(c1, c, env, isVoid, stmts);
    StmtGrew(c, c', env, isVoid, s);
    ListFormedNext(c1, c, c', stmts, s);
  }

  lemma CompoundEnds(c: Code, c1: Code, c2: Code, env: Env, env2: Env, isVoid: bool, decls: seq<Ast.Decl>, stmts: seq<Ast.Stmt>)
    requires DeclsDone(c, c1, env + [map[]], env2, decls) && ListDone(c1, c2, env2, isVoid, stmts)
    requires Straight(c, c1) && ListFormed(c1, c2, stmts)
    ensures StmtFormed(c, c2, Ast.Compound(decls, stmts))
  {
    hide DeclsDone, ListDone, CodeOk, Good, Grew, Straight, ListFormed, StmtFormed;
    DeclsCode(c, c1, env + [map[]], env2, decls);
    ListGrew(c1, c2, env2, isVoid, stmts);
    CompoundFormed(c, c1, c2, decls, stmts);
  }

  lemma ExpressionFormed(c: Code, c': Code, e: Option<Ast.Expr>)
    requires Straight(c, c')
    ensures StmtFormed(c, c', Ast.Expression(e))
  {
    hide Formed;
  }

  lemma ReturnFormed(c: Code, c1: Code, s: Ast.Stmt, v: Option<Val>)
    requires CodeOk(c) && CodeOk(c1) && Grew(c, c1) && c1.cur !in c1.term && Straight(c, c1) && s.Return?
    ensures StmtFormed(c, Branch(c1, Ret(v), c1.cur), s)
  {
    hide Formed, CodeOk, Grew, Branch, Straight;
    RetFormed(c, c1, v);
  }

  lemma DoneGrew(c: Code, c': Code, env: Env, isVoid: bool, e: Ast.Expr, v: Val)
    requires ExprDone(c, c', env, isVoid, e, v)
    ensures Grew(c, c') && CodeOk(c) && CodeOk(c') && c'.cur !in c'.term
  {
    hide ExprRuns, Certified, AvailNow, EnvOk, EnvAvail, Usable, Grew;
  }

  /** Only the innermost scope gets new names. */
  lemma DeclareStays(env: Env, now: Env, name: Name, b: Binding)
    requires env != [] && |now| == |env| && now[..|env| - 1] == env[..|env| - 1]
    ensures |Ast.Declare(now, name, b)| == |env| && Ast.Declare(now, name, b)[..|env| - 1] == env[..|env| - 1]
  {
  }

  /** The end of an if, an else and a loop: what was built, and where the insert point goes next. */
  lemma IfEnds(c: Code, c1: Code, c5: Code, env: Env, isVoid: bool, cond: Ast.Expr, v: Val, yes: Ast.Stmt)
    requires ExprDone(c, c1, env, isVoid, cond, v) && c.cur !in c.term && Straight(c, c1) && CodeOk(c1)
    requires StmtDone(Tested(c1, v, false), c5, env, isVoid, yes) && StmtFormed(Tested(c1, v, false), c5, yes)
    ensures CodeOk(c5) && c1.count + 1 < c5.count
    ensures var d := JoinTo(c5, c1.count + 1, c1.count + 1);
            StmtDone(c, d, env, isVoid, Ast.If(cond, yes, None)) && StmtFormed(c, d, Ast.If(cond, yes, None)) && CodeOk(d)
  {
    hide ExprDone, StmtDone, Straight, StmtFormed, CodeOk, Certified, AvailNow, EnvOk, EnvAvail, Tested, JoinTo, Compared0, Opened, Fresh, TestReady, Grew, Stage, Good;
    DoneTested(c, c1, env, isVoid, cond, v, false);
    DoneOpen(c, c1, env, isVoid, cond, v);
    StmtGrew(Tested(c1, v, false), c5, env, isVoid, yes);
    IfDone(c, c1, c5, env, isVoid, cond, v, yes);
    IfFormed(c, c1, v, c5, cond, yes);
    StmtCodes(c, JoinTo(c5, c1.count + 1, c1.count + 1), env, isVoid, Ast.If(cond, yes, None));
  }

  lemma ElseStarts(c: Code, c1: Code, c5: Code, env: Env, isVoid: bool, cond: Ast.Expr, v: Val, yes: Ast.Stmt)
    requires ExprDone(c, c1, env, isVoid, cond, v) && c.cur !in c.term && CodeOk(c1)
    requires StmtDone(Tested(c1, v, true), c5, env, isVoid, yes)
    ensures CodeOk(c5) && c1.count + 2 < c5.count
    ensures var c6 := JoinTo(c5, c1.count + 1, c1.count + 2); CodeOk(c6) && Good(c6, env) && c6.cur !in c6.term
  {
    hide ExprDone, StmtDone, CodeOk, Certified, AvailNow, EnvOk, EnvAvail, Tested, JoinTo, Compared0, Opened, Fresh, TestReady, Grew, Stage, Good;
    DoneTested(c, c1, env, isVoid, cond, v, true);
    StmtGrew(Tested(c1, v, true), c5, env, isVoid, yes);
    ElseReady(c, c1, c5, env, isVoid, cond, v, yes);
  }

  lemma ElseEnds(c: Code, c1: Code, c5: Code, c7: Code, env: Env, isVoid: bool, cond: Ast.Expr, v: Val, yes: Ast.Stmt, no: Ast.Stmt)
    requires ExprDone(c, c1, env, isVoid, cond, v) && c.cur !in c.term && Straight(c, c1) && CodeOk(c1)
    requires StmtDone(Tested(c1, v, true), c5, env, isVoid, yes) && StmtFormed(Tested(c1, v, true), c5, yes)
    requires var c6 := JoinTo(c5, c1.count + 1, c1.count + 2); StmtDone(c6, c7, env, isVoid, no) && StmtFormed(c6, c7, no)
    ensures CodeOk(c7) && c1.count + 1 < c7.count
    ensures var d := JoinTo(c7, c1.count + 1, c1.count + 1);
            StmtDone(c, d, env, isVoid, Ast.If(cond, yes, Some(no))) && StmtFormed(c, d, Ast.If(cond, yes, Some(no))) && CodeOk(d)
  {
    hide ExprDone, StmtDone, Straight, StmtFormed, CodeOk, Certified, AvailNow, EnvOk, EnvAvail, Tested, Compared0, Opened, Fresh, TestReady, Grew, Stage, Good;
    DoneTested(c, c1, env, isVoid, cond, v, true);
    DoneOpen(c, c1, env, isVoid, cond, v);
    StmtGrew(Tested(c1, v, true), c5, env, isVoid, yes);
    StmtGrew(JoinTo(c5, c1.count + 1, c1.count + 2), c7, env, isVoid, no);
    IfElseDone(c, c1, c5, c7, env, isVoid, cond, v, yes, no);
    StmtCodes(c, JoinTo(c7, c1.count + 1, c1.count + 1), env, isVoid, Ast.If(cond, yes, Some(no)));
    ElseReady(c, c1, c5, env, isVoid, cond, v, yes);
    TestGrew(c, c1, env, isVoid, cond, v);
    GrewJoin(c1, Tested(c1, v, true), c5, c1.count + 1, c1.count + 2);
    GrewJoin(c1, JoinTo(c5, c1.count + 1, c1.count + 2), c7, c1.count + 1, c1.count + 1);
    ElseFormed(c, c1, v, c5, c7, cond, yes, no);
  }

  lemma WhileEnds(c: Code, c3: Code, c7: Code, env: Env, isVoid: bool, cond: Ast.Expr, v: Val, body: Ast.Stmt)
    requires Good(c, env) && c.cur !in c.term && CodeOk(c)
    requires ExprDone(Headed(c), c3, env, isVoid, cond, v) && Straight(Headed(c), c3) && CodeOk(c3)
    requires StmtDone(Tested(c3, v, false), c7, env, isVoid, body) && StmtFormed(Tested(c3, v, false), c7, body)
    ensures CodeOk(c7) && c.count < c7.count
    ensures var d := JoinTo(c7, c.count, c3.count + 1);
            StmtDone(c, d, env, isVoid, Ast.While(cond, body)) && StmtFormed(c, d, Ast.While(cond, body)) && CodeOk(d)
  {
    hide ExprDone, StmtDone, Straight, StmtFormed, CodeOk, Certified, AvailNow, EnvOk, EnvAvail, Tested, JoinTo, Compared0, Opened, Fresh, TestReady, Grew, Stage, Good, Headed;
    HeadSteps(c, env);
    DoneTested(Headed(c), c3, env, isVoid, cond, v, false);
    DoneOpen(Headed(c), c3, env, isVoid, cond, v);
    StmtGrew(Tested(c3, v, false), c7, env, isVoid, body);
    WhileDone(c, c3, c7, env, isVoid, cond, v, body);
    HeadGrew(c, env);
    WhileFormed(c, c3, v, c7, cond, body);
    StmtCodes(c, JoinTo(c7, c.count, c3.count + 1), env, isVoid, Ast.While(cond, body));
  }

  /** The test is new code from where the condition has been computed. */
  lemma TestGrew(c: Code, c1: Code, env: Env, isVoid: bool, cond: Ast.Expr, v: Val)
    requires ExprDone(c, c1, env, isVoid, cond, v) && CodeOk(c1)
    ensures Grew(c1, Tested(c1, v, true)) && c1.cur in Tested(c1, v, true).term && Tested(c1, v, true).cur == c1.count
  {
    hide ExprDone, CodeOk, Good, Grew, Tested, Usable, AvailNow, Compared0, Opened, Fresh;
    DoneOpen(c, c1, env, isVoid, cond, v);
    StageStart(c1, env);
    TestStages(c1, c1, env, v, true);
    StageGrew(c1, Tested(c1, v, true), env);
    TestFacts(c1, c1, env, v, true);
    TestedIs(c1, v, true);
  }

  /** When the current block has been ended, joining new blocks leaves everything old as it is. */
  lemma GrewJoin(c: Code, t: Code, c5: Code, target: Block, next: Block)
    requires CodeOk(c) && CodeOk(t) && CodeOk(c5) && Grew(c, t) && Grew(t, c5) && c.cur in t.term && c.count <= t.cur
    requires c.count <= target < c5.count && c.count <= next
    ensures Grew(c, JoinTo(c5, target, next)) && c.cur in JoinTo(c5, target, next).term
  {
    hide Grew, JoinTo, CodeOk;
    GrewTrans(c, t, c5);
    GrewTerms(t, c5);
    GrewKept(t, c5);
    GrewJoined(c, c5, target, next);
  }

  lemma GrewKept(t: Code, c5: Code)
    requires CodeOk(t) && CodeOk(c5) && Grew(t, c5)
    ensures c5.cur == t.cur || c5.cur >= t.count
    ensures 0 <= t.cur < t.count
  {
  }

  lemma GrewJoined(c: Code, c5: Code, target: Block, next: Block)
    requires CodeOk(c) && CodeOk(c5) && Grew(c, c5) && c.cur in c5.term && c.count <= c5.cur
    requires c.count <= target < c5.count && c.count <= next
    ensures Grew(c, JoinTo(c5, target, next)) && c.cur in JoinTo(c5, target, next).term
  {
    hide CodeOk;
    var d := JoinTo(c5, target, next);
    assert d.body == c5.body && d.avail == c5.avail && d.count == c5.count && d.nextId == c5.nextId && d.nextSlot == c5.nextSlot;
    if c5.cur !in c5.term {
      assert d.term == c5.term[c5.cur := Br(target)];
      forall b, t | b in d.term && b !in c.term && t in Targets(d.term[b]) ensures c.count <= t < d.count {
      }
    }
  }

  lemma HeadGrew(c: Code, env: Env)
    requires Good(c, env) && c.cur !in c.term
    ensures CodeOk(c) && Grew(c, Headed(c)) && Headed(c).cur !in Headed(c).term
  {
    hide Good, Headed, CodeOk, Grew;
    HeadStage(c, env);
    StageGrew(c, Headed(c), env);
    StageFacts(c, Headed(c), env);
  }

  lemma PartsTyped(ks: Kinds, isVoid: bool, s: Ast.Stmt)
    requires StmtTyped(ks, isVoid, s) && (s.If? || s.While?)
    ensures Typed(ks, s.cond)
    ensures s.If? ==> StmtTyped(ks, isVoid, s.yes) && (s.no.Some? ==> StmtTyped(ks, isVoid, s.no.value))
    ensures s.While? ==> StmtTyped(ks, isVoid, s.body)
  {
  }

  lemma CompoundKinds(env: Env, isVoid: bool, decls: seq<Ast.Decl>, stmts: seq<Ast.Stmt>)
    requires StmtTyped(KindsOf(env), isVoid, Ast.Compound(decls, stmts))
    ensures forall s | s in stmts :: StmtTyped(DeclareKinds(KindsOf(env + [map[]]), decls), isVoid, s)
  {
    assert KindsOf(env + [map[]]) == KindsOf(env) + [map[]];
  }
}
