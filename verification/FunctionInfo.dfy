/** Which functions are pure: a first look at each function, then a walk up the calls. */
module FunctionInfo {

  type FuncId = int

  /** An address operand, as far as it can be followed: an alloca, an element address of another
      one, a loaded pointer, another instruction with its pointer operands, or no instruction. */
  datatype Address =
    | OfAlloca
    | OfGep(base: Address)
    | OfLoad
    | OfOther(pointers: seq<Address>)
    | NoInstruction

  datatype Inst = LoadFrom(addr: Address) | StoreTo(addr: Address) | Other

  datatype ParamType = Integer | FloatingPoint | Pointer

  /** users are the functions whose instructions use this one, in use-list order. */
  datatype Function = Function(isDeclaration: bool, isMain: bool, params: seq<ParamType>, insts: seq<Inst>, users: seq<FuncId>)

  type Program = map<FuncId, Function>

  ghost predicate UsersKnown(p: Program) {
    forall f, u | f in p && u in p[f].users :: u in p
  }

  /** Where the address comes from. */
  function GetFirstAddr(a: Address): Address {
    match a
    case OfAlloca => a
    case OfGep(base) => GetFirstAddr(base)
    case OfLoad => a
    case OfOther(pointers) => if pointers == [] then a else GetFirstAddr(pointers[0])
    case NoInstruction => a
  }

  predicate IsSideEffectInst(inst: Inst) {
    match inst
    case LoadFrom(a) => !GetFirstAddr(a).OfAlloca?
    case StoreTo(a) => !GetFirstAddr(a).OfAlloca?
    case Other => false
  }

  // ----- which functions touch what is not theirs -----

  /** The address is computed from this one: an element address from its base, another instruction from its first pointer. */
  ghost predicate ComputedFrom(a: Address, b: Address) {
    (a.OfGep? && b == a.base) || (a.OfOther? && |a.pointers| > 0 && b == a.pointers[0])
  }

  ghost predicate LeadsToAlloca(path: seq<Address>, a: Address) {
    && |path| > 0 && path[0] == a && path[|path| - 1] == OfAlloca
    && forall i | 0 <= i < |path| - 1 :: ComputedFrom(path[i], path[i + 1])
  }

  ghost predicate StartsAtAlloca(a: Address) {
    exists path :: LeadsToAlloca(path, a)
  }

  /** Something at this address is loaded or stored. */
  ghost predicate Accesses(f: Function, a: Address) {
    LoadFrom(a) in f.insts || StoreTo(a) in f.insts
  }

  /** By itself: its body is not known, or it could reach memory that is not its own. */
  ghost predicate ReachesOut(f: Function) {
    || f.isDeclaration || f.isMain || Pointer in f.params
    || exists a :: Accesses(f, a) && !StartsAtAlloca(a)
  }

  /** Following the address finds the alloca that it starts at, if there is one. */
  lemma {:induction false} FirstAddrExact(a: Address)
    ensures GetFirstAddr(a).OfAlloca? <==> StartsAtAlloca(a)
    decreases a
  {
    if a.OfAlloca? {
      assert LeadsToAlloca([a], a);
    } else if a.OfGep? || (a.OfOther? && a.pointers != []) {
      var b := if a.OfGep? then a.base else a.pointers[0];
      FirstAddrExact(b);
      if StartsAtAlloca(b) {
        var path :| LeadsToAlloca(path, b);
        assert LeadsToAlloca([a] + path, a);
      }
      if StartsAtAlloca(a) {
        PathStep(a);
      }
    } else if StartsAtAlloca(a) {
      PathStep(a);
    }
  }

  lemma PathStep(a: Address)
    requires StartsAtAlloca(a)
    ensures a.OfAlloca? || exists b :: ComputedFrom(a, b) && StartsAtAlloca(b)
  {
    var path :| LeadsToAlloca(path, a);
    if |path| > 1 {
      var rest := path[1..];
      assert ComputedFrom(path[0], path[0 + 1]);
      forall i | 0 <= i < |rest| - 1 ensures ComputedFrom(rest[i], rest[i + 1]) {
        assert ComputedFrom(path[i + 1], path[i + 1 + 1]);
      }
      assert LeadsToAlloca(rest, path[1]);
    }
  }

  /** The look at single instructions finds what touches other memory. */
  lemma SideEffectsFound(f: Function)
    ensures (exists inst :: inst in f.insts && IsSideEffectInst(inst)) <==> exists a :: Accesses(f, a) && !StartsAtAlloca(a)
  {
    hide GetFirstAddr, StartsAtAlloca;
    if inst :| inst in f.insts && IsSideEffectInst(inst) {
      FirstAddrExact(inst.addr);
      assert Accesses(f, inst.addr) && !StartsAtAlloca(inst.addr);
    }
    if a :| Accesses(f, a) && !StartsAtAlloca(a) {
      FirstAddrExact(a);
      assert IsSideEffectInst(LoadFrom(a)) && IsSideEffectInst(StoreTo(a));
    }
  }

  /** A chain of calls: each function is used by the one before it. */
  ghost predicate CallChain(p: Program, chain: seq<FuncId>) {
    && |chain| > 0 && (forall i | 0 <= i < |chain| :: chain[i] in p)
    && forall i | 0 <= i < |chain| - 1 :: chain[i] in p[chain[i + 1]].users
  }

  /** The function calls, directly or through others, one that touches what is not its own. */
  ghost predicate CallsImpure(p: Program, f: FuncId) {
    exists chain :: CallChain(p, chain) && chain[0] == f && ReachesOut(p[chain[|chain| - 1]])
  }

  // ----- the walk -----

  ghost predicate Marked(p: Program, isPure: map<FuncId, bool>, work: seq<FuncId>) {
    && (forall f :: f in isPure <==> f in p)
    && (forall f | f in work :: f in p && !isPure[f])
    && (forall f | f in p && !isPure[f] :: CallsImpure(p, f))
    && (forall f | f in p && ReachesOut(p[f]) :: !isPure[f])
  }

  /** Callers of what is known to be impure are impure, or their callee is still on the list. */
  ghost predicate CallersDone(p: Program, isPure: map<FuncId, bool>, work: seq<FuncId>) {
    forall f, u | f in p && f in isPure && !isPure[f] && f !in work && u in p[f].users :: u in isPure && !isPure[u]
  }

  lemma OutCalls(p: Program, f: FuncId)
    requires f in p && ReachesOut(p[f])
    ensures CallsImpure(p, f)
  {
    assert CallChain(p, [f]) && [f][0] == f;
  }

  lemma CallerCalls(p: Program, f: FuncId, u: FuncId)
    requires f in p && u in p && u in p[f].users && CallsImpure(p, f)
    ensures CallsImpure(p, u)
  {
    var chain :| CallChain(p, chain) && chain[0] == f && ReachesOut(p[chain[|chain| - 1]]);
    var longer := [u] + chain;
    assert forall i | 0 <= i < |chain| :: longer[i + 1] == chain[i];
    assert CallChain(p, longer) && longer[0] == u;
  }

  /** When the list is empty, every function that calls an impure one has been found. */
  lemma {:induction false} AllFound(p: Program, isPure: map<FuncId, bool>, chain: seq<FuncId>)
    requires UsersKnown(p) && Marked(p, isPure, []) && CallersDone(p, isPure, [])
    requires CallChain(p, chain) && ReachesOut(p[chain[|chain| - 1]])
    ensures chain[0] in isPure && !isPure[chain[0]]
    decreases |chain|
  {
    var f := chain[0];
    assert f in p;
    if |chain| == 1 {
      assert ReachesOut(p[f]);
    } else {
      var rest := chain[1..];
      forall i | 0 <= i < |rest| - 1 ensures rest[i] in p[rest[i + 1]].users {
        assert chain[i + 1] in p[chain[i + 1 + 1]].users;
      }
      assert CallChain(p, rest);
      AllFound(p, isPure, rest);
      assert chain[0] in p[chain[0 + 1]].users;
      assert rest[0] == chain[1];
      assert rest[0] in p && f in p[rest[0]].users;
    }
  }

  class FuncInfo {
    const program: Program
    const functions: seq<FuncId>
    var worklist: seq<FuncId>
    var isPure: map<FuncId, bool>

    constructor (p: Program, functions: seq<FuncId>)
      ensures program == p && this.functions == functions && isPure == map[] && worklist == []
    {
      program, this.functions, worklist, isPure := p, functions, [], map[];
    }

    method TrivialMark(func: FuncId)
      requires func in program
      modifies this`isPure
      ensures isPure == old(isPure)[func := !ReachesOut(program[func])]
    {
      hide StartsAtAlloca, IsSideEffectInst;
      var f := program[func];
      SideEffectsFound(f);
      if f.isDeclaration || f.isMain {
        isPure := isPure[func := false];
        return;
      }
      var i := 0;
      while i < |f.params|
        invariant 0 <= i <= |f.params| && forall p | p in f.params[..i] :: !p.Pointer?
      {
        if !f.params[i].Integer? && !f.params[i].FloatingPoint? {
          assert f.params[i] in f.params;
          isPure := isPure[func := false];
          return;
        }
        assert f.params[..i + 1] == f.params[..i] + [f.params[i]];
        i := i + 1;
      }
      assert f.params[..i] == f.params;
      var j := 0;
      while j < |f.insts|
        invariant 0 <= j <= |f.insts| && forall inst | inst in f.insts[..j] :: !IsSideEffectInst(inst)
      {
        if IsSideEffectInst(f.insts[j]) {
          assert f.insts[j] in f.insts;
          isPure := isPure[func := false];
          return;
        }
        assert f.insts[..j + 1] == f.insts[..j] + [f.insts[j]];
        j := j + 1;
      }
      assert f.insts[..j] == f.insts;
      isPure := isPure[func := true];
    }

    /** The callers of a function that is not pure are not pure. */
    method Process(func: FuncId)
      requires UsersKnown(program) && func in program && CallsImpure(program, func)
      requires Marked(program, isPure, worklist)
      modifies this`isPure, this`worklist
      ensures Marked(program, isPure, worklist)
      ensures forall u | u in program[func].users :: u in isPure && !isPure[u]
      ensures forall f | f in old(isPure) && !old(isPure)[f] :: f in isPure && !isPure[f]
      ensures forall f | f in isPure && !isPure[f] && !(f in old(isPure) && !old(isPure)[f]) :: f in worklist
      ensures forall f | f in old(worklist) :: f in worklist
      ensures PureCount(isPure) < PureCount(old(isPure)) || (isPure == old(isPure) && worklist == old(worklist))
    {
      hide ReachesOut, CallsImpure;
      var users := program[func].users;
      var i := 0;
      while i < |users|
        invariant 0 <= i <= |users| && Marked(program, isPure, worklist)
        invariant forall u | u in users[..i] :: u in isPure && !isPure[u]
        invariant forall f | f in old(isPure) && !old(isPure)[f] :: f in isPure && !isPure[f]
        invariant forall f | f in isPure && !isPure[f] && !(f in old(isPure) && !old(isPure)[f]) :: f in worklist
        invariant forall f | f in old(worklist) :: f in worklist
        invariant PureCount(isPure) < PureCount(old(isPure)) || (isPure == old(isPure) && worklist == old(worklist))
      {
        var caller := users[i];
        assert caller in users && caller in program;
        if isPure[caller] {
          CallerCalls(program, func, caller);
          PureFewer(isPure, caller);
          isPure := isPure[caller := false];
          worklist := worklist + [caller];
        }
        assert users[..i + 1] == users[..i] + [caller];
        i := i + 1;
      }
      assert users[..i] == users;
    }

    /** Every function by itself. */
    method MarkAll()
      requires (forall f :: f in functions <==> f in program) && isPure == map[] && worklist == []
      modifies this
      ensures (forall f :: f in isPure <==> f in program) && forall f | f in program :: isPure[f] <==> !ReachesOut(program[f])
      ensures forall f :: f in worklist <==> f in program && !isPure[f]
    {
      hide ReachesOut;
      var i := 0;
      while i < |functions|
        invariant 0 <= i <= |functions| && forall f :: f in isPure <==> f in functions[..i]
        invariant forall f | f in functions[..i] :: f in program && (isPure[f] <==> !ReachesOut(program[f]))
        invariant forall f :: f in worklist <==> f in functions[..i] && !isPure[f]
      {
        var func := functions[i];
        assert func in functions && func in program;
        assert functions[..i + 1] == functions[..i] + [func];
        TrivialMark(func);
        if !isPure[func] {
          worklist := worklist + [func];
        }
        i := i + 1;
      }
      assert functions[..i] == functions;
    }

    /** A function is pure exactly if no chain of calls leads to one that touches what is not its own. */
    method Run()
      requires UsersKnown(program) && (forall f :: f in functions <==> f in program) && isPure == map[] && worklist == []
      modifies this
      ensures forall f :: f in isPure <==> f in program
      ensures forall f | f in program :: isPure[f] <==> !CallsImpure(program, f)
    {
      hide ReachesOut, CallsImpure;
      MarkAll();
      forall f | f in program && ReachesOut(program[f]) ensures CallsImpure(program, f) {
        OutCalls(program, f);
      }
      while worklist != []
        invariant Marked(program, isPure, worklist) && CallersDone(program, isPure, worklist)
        decreases PureCount(isPure), |worklist|
      {
        var now := worklist[0];
        assert now in worklist;
        ghost var rest := worklist[1..];
        assert forall f :: f in worklist <==> f == now || f in rest;
        worklist := worklist[1..];
        Process(now);
      }
      forall f | f in program ensures isPure[f] <==> !CallsImpure(program, f) {
        if CallsImpure(program, f) {
          ChainFound(program, isPure, f);
        }
      }
    }
  }

  lemma ChainFound(p: Program, isPure: map<FuncId, bool>, f: FuncId)
    requires UsersKnown(p) && Marked(p, isPure, []) && CallersDone(p, isPure, []) && CallsImpure(p, f)
    ensures f in isPure && !isPure[f]
  {
    var chain :| CallChain(p, chain) && chain[0] == f && ReachesOut(p[chain[|chain| - 1]]);
    AllFound(p, isPure, chain);
  }

  ghost function PureCount(isPure: map<FuncId, bool>): nat {
    |set f | f in isPure && isPure[f]|
  }

  lemma PureFewer(isPure: map<FuncId, bool>, f: FuncId)
    requires f in isPure && isPure[f]
    ensures PureCount(isPure[f := false]) < PureCount(isPure)
  {
    var less := isPure[f := false];
    var a, b := (set g | g in less && less[g]), (set g | g in isPure && isPure[g]);
    assert b == a + {f};
  }
}
