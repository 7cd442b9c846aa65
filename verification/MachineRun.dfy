/** Running the emitted text with a program counter, against running the function:
    the generated code does what the function does, for runs of any length. */
module MachineRun {
  import opened Common
  import opened Cfg
  import opened LoongArch
  import opened Frame
  import opened LowIr
  import opened Fragments
  import opened Allocation
  import opened PhiCopies
  import opened Emission

  // ----- the machine -----

  /** Lost: the program counter has left the text, or a label is missing. */
  datatype Machine = At(pc: nat, st: State) | Exited(st: State) | Lost

  function FindFrom(prog: seq<Asm>, t: int, i: nat): Option<nat>
    decreases |prog| - i
  {
    if i >= |prog| then None else if prog[i] == Label(t) then Some(i) else FindFrom(prog, t, i + 1)
  }

  function GoTo(prog: seq<Asm>, t: int, st: State): Machine {
    match FindFrom(prog, t, 0)
    case Some(i) => At(i, st)
    case None => Lost
  }

  function MachineStep(prog: seq<Asm>, m: Machine): Machine {
    if !m.At? then m
    else if m.pc >= |prog| then Lost
    else
      match prog[m.pc]
      case B(t) => GoTo(prog, t, m.st)
      case Bnez(r, t) => if Get(m.st.regs, r) != 0 then GoTo(prog, t, m.st) else At(m.pc + 1, m.st)
      case Jr(_) => Exited(m.st)
      case i => At(m.pc + 1, Exec1(m.st, i))
  }

  function Steps(prog: seq<Asm>, m: Machine, n: nat): Machine {
    if n == 0 then m else MachineStep(prog, Steps(prog, m, n - 1))
  }

  lemma {:induction false} StepsAdd(prog: seq<Asm>, m: Machine, a: nat, b: nat)
    ensures Steps(prog, Steps(prog, m, a), b) == Steps(prog, m, a + b)
    decreases b
  {
    if b > 0 {
      StepsAdd(prog, m, a, b - 1);
    }
  }

  /** The program reads text from pc on. */
  ghost predicate TextAt(prog: seq<Asm>, pc: nat, text: seq<Asm>) {
    pc + |text| <= |prog| && forall k | 0 <= k < |text| :: prog[pc + k] == text[k]
  }

  lemma TextParts(prog: seq<Asm>, pc: nat, a: seq<Asm>, b: seq<Asm>)
    requires TextAt(prog, pc, a + b)
    ensures TextAt(prog, pc, a) && TextAt(prog, pc + |a|, b)
  {
    forall k | 0 <= k < |a| ensures prog[pc + k] == a[k] {
      assert (a + b)[k] == a[k];
    }
    forall k | 0 <= k < |b| ensures prog[pc + |a| + k] == b[k] {
      assert (a + b)[|a| + k] == b[k];
    }
  }

  lemma {:induction false} RunStraight(prog: seq<Asm>, pc: nat, code: seq<Asm>, st: State)
    requires TextAt(prog, pc, code) && StraightLine(code)
    ensures Steps(prog, At(pc, st), |code|) == At(pc + |code|, Exec(st, code))
    decreases |code|
  {
    if code != [] {
      var init, last := code[..|code| - 1], code[|code| - 1];
      assert code == init + [last];
      TextParts(prog, pc, init, [last]);
      assert last in code;
      RunStraight(prog, pc, init, st);
      RunOne(prog, pc + |init|, last, Exec(st, init));
    }
  }

  lemma RunOne(prog: seq<Asm>, pc: nat, i: Asm, st: State)
    requires TextAt(prog, pc, [i]) && !i.B? && !i.Bnez? && !i.Jr?
    ensures MachineStep(prog, At(pc, st)) == At(pc + 1, Exec1(st, i))
  {
    hide Exec1;
    assert prog[pc + 0] == [i][0];
  }

  lemma {:induction false} FindFirst(prog: seq<Asm>, t: int, i: nat, p: nat)
    requires i <= p < |prog| && prog[p] == Label(t) && forall k | i <= k < p :: prog[k] != Label(t)
    ensures FindFrom(prog, t, i) == Some(p)
    decreases p - i
  {
    if i < p {
      FindFirst(prog, t, i + 1, p);
    }
  }

  // ----- the function -----

  /** Finished with the returned value, the memory that is left, and the calls that were made. */
  datatype IrMachine = In(block: Block, s: IrState) | Finished(val: Option<int>, mem: Memory, trace: Trace)

  function CopiesInto(f: Function, succ: Block, from: Block): seq<Copy> {
    if succ in f.phis then EdgeCopies(f.phis[succ], from) else []
  }

  ghost function CopyTargets(cs: seq<Copy>): set<Id> {
    set c | c in cs :: c.0
  }

  /** The phis of the taken edge get their values at once. The phis of the other edge's
      block are overwritten too, so that their values are lost. */
  ghost function AfterEdge(l: Layout, s: IrState, taken: seq<Copy>, other: seq<Copy>): IrState {
    var s' := ParallelCopy(l, s, taken);
    s'.(env := s'.env - (CopyTargets(other) - CopyTargets(taken)))
  }

  ghost function RunBlock(l: Layout, f: Function, b: Block, s: IrState): IrMachine
    requires HasBlocks(f) && b in f.blocks
  {
    var s1 := StepAll(l, s, f.body[b]);
    match f.term[b]
    case Br(t) => In(t, ParallelCopy(l, s1, CopiesInto(f, t, b)))
    case CondBr(v, t, u) =>
      if Value(l, s1, v) != 0 then In(t, AfterEdge(l, s1, CopiesInto(f, t, b), CopiesInto(f, u, b)))
      else In(u, AfterEdge(l, s1, CopiesInto(f, u, b), CopiesInto(f, t, b)))
    case Ret(v) => Finished(if v.Some? then Some(Value(l, s1, v.value)) else None, s1.mem, s1.trace)
  }

  /** Every instruction is safe, phi copies are well-typed and do not clash, the condition of a branch is defined and survives
      them, and so is what is returned. Copied values need not be defined. */
  ghost predicate BlockSafe(l: Layout, f: Function, b: Block, s: IrState)
    requires HasBlocks(f) && b in f.blocks
  {
    var s1 := StepAll(l, s, f.body[b]);
    var cs := CopiesFor(f.phis, Targets(f.term[b]), b);
    && SafeAll(l, s, f.body[b]) && CopiesTyped(l, cs) && CopyFree(cs)
    && match f.term[b]
       case Br(_) => true
       case CondBr(v, _, _) =>
         Known(l, s1, v) && TypedAs(l, ParallelCopy(l, s1, cs), v, I1) && Value(l, ParallelCopy(l, s1, cs), v) == Value(l, s1, v)
       case Ret(v) => v.Some? ==> Known(l, s1, v.value) && TypeOf(l, v.value) != I1
  }

  /** Branches stay inside the function, and different blocks have different phis. */
  ghost predicate ControlOk(f: Function)
    requires HasBlocks(f)
  {
    && NoDuplicates(f.blocks)
    && (forall b, t | b in f.blocks && t in Targets(f.term[b]) :: t in f.blocks)
    && (forall b, c, i, j | b in f.phis && c in f.phis && b != c && 0 <= i < |f.phis[b]| && 0 <= j < |f.phis[c]| ::
          f.phis[b][i].id != f.phis[c][j].id)
  }

  ghost function Run(l: Layout, f: Function, m: IrMachine, n: nat): IrMachine
    requires HasBlocks(f)
  {
    if n == 0 then m
    else
      var m' := Run(l, f, m, n - 1);
      if m'.In? && m'.block in f.blocks then RunBlock(l, f, m'.block, m'.s) else m'
  }

  /** All blocks of the run are safe. */
  ghost predicate RunSafe(l: Layout, f: Function, m: IrMachine, n: nat)
    requires HasBlocks(f)
  {
    forall k | 0 <= k < n :: var m' := Run(l, f, m, k); m'.In? && m'.block in f.blocks ==> BlockSafe(l, f, m'.block, m'.s)
  }

  // ----- where the blocks are -----

  lemma {:induction false} TextsSplit(f: Function, blocks: seq<Block>, em: map<Block, Emitted>, i: nat) returns (rest: seq<Asm>)
    requires i < |blocks| && blocks[i] in f.term && blocks[i] in em
    ensures Texts(f, blocks, em) == Texts(f, blocks[..i], em) + TextOf(blocks[i], f.term[blocks[i]], em[blocks[i]]) + rest
    decreases |blocks|
  {
    hide TextOf;
    var last := |blocks| - 1;
    if i == last {
      rest := [];
    } else {
      var b := blocks[last];
      var r := TextsSplit(f, blocks[..last], em, i);
      assert blocks[..last][..i] == blocks[..i];
      rest := r + if b in f.term && b in em then TextOf(b, f.term[b], em[b]) else [];
    }
  }

  lemma {:induction false} NoLabelIn(f: Function, off: map<Id, int>, frameSize: nat, blocks: seq<Block>, em: map<Block, Emitted>, t: Block)
    requires HasBlocks(f) && BlocksEmitted(f, off, frameSize, blocks, em) && t !in blocks
    ensures Label(t) !in Texts(f, blocks, em)
    decreases |blocks|
  {
    hide EmittedOk, TextOf;
    if blocks != [] {
      var b := blocks[|blocks| - 1];
      assert b in blocks;
      NoLabelIn(f, off, frameSize, blocks[..|blocks| - 1], em, t);
      OneLabel(f, off, frameSize, b, em[b], t);
    }
  }

  lemma OneLabel(f: Function, off: map<Id, int>, frameSize: nat, b: Block, e: Emitted, t: Block)
    requires HasBlocks(f) && b in f.blocks && EmittedOk(f, off, frameSize, b, e) && t != b
    ensures Label(t) !in TextOf(b, f.term[b], e)
  {
    hide SimulatesAll, Copies, Loads, Leaves, KeepsFrame, AllEncodable, AllocasFit;
    assert Label(t) !in e.body && Label(t) !in e.copies && Label(t) !in e.load && Label(t) !in e.leave;
  }

  /** Everything about an emitted function that running it needs. */
  ghost predicate Linked(f: Function, off: map<Id, int>, frameSize: nat, name: int, prog: seq<Asm>,
                         enter: seq<Asm>, em: map<Block, Emitted>, tail: seq<Asm>)
  {
    && HasBlocks(f) && FunctionText(f, off, frameSize, name, prog, enter, em, tail)
    && ControlOk(f) && name !in f.blocks && f.blocks != [] && frameSize >= 16
  }

  /** What comes before a block's text has no label of the block. */
  lemma NoLabelBefore(f: Function, off: map<Id, int>, frameSize: nat, name: int, enter: seq<Asm>, em: map<Block, Emitted>, i: nat)
    requires HasBlocks(f) && BlocksEmitted(f, off, frameSize, f.blocks, em) && StraightLine(enter)
    requires i < |f.blocks| && NoDuplicates(f.blocks) && name != f.blocks[i]
    ensures Label(f.blocks[i]) !in [Label(name)] + enter + Texts(f, f.blocks[..i], em)
  {
    hide EmittedOk, Texts;
    var b := f.blocks[i];
    assert b !in f.blocks[..i];
    NoLabelIn(f, off, frameSize, f.blocks[..i], em, b);
    assert Label(b) !in enter;
  }

  lemma Regroup(a: seq<Asm>, x: seq<Asm>, text: seq<Asm>, rest: seq<Asm>, tail: seq<Asm>)
    ensures a + (x + text + rest) + tail == (a + x) + text + (rest + tail)
  {
  }

  lemma TextHead(b: Block, t: Term, e: Emitted)
    ensures TextOf(b, t, e) != [] && TextOf(b, t, e)[0] == Label(b)
  {
    hide BranchText;
  }

  lemma PlaceFound(prog: seq<Asm>, pre: seq<Asm>, text: seq<Asm>, post: seq<Asm>, t: int)
    requires prog == pre + text + post && text != [] && text[0] == Label(t) && Label(t) !in pre
    ensures TextAt(prog, |pre|, text) && FindFrom(prog, t, 0) == Some(|pre|)
  {
    hide FindFrom;
    forall k | 0 <= k < |pre| ensures prog[k] != Label(t) {
      assert prog[k] == pre[k];
      assert pre[k] in pre;
    }
    assert prog[|pre|] == text[0];
    FindFirst(prog, t, 0, |pre|);
  }

  /** A block's text, and where jumps to it go. */
  lemma BlockPlace(f: Function, off: map<Id, int>, frameSize: nat, name: int, prog: seq<Asm>,
                   enter: seq<Asm>, em: map<Block, Emitted>, tail: seq<Asm>, b: Block) returns (pc: nat)
    requires Linked(f, off, frameSize, name, prog, enter, em, tail) && b in f.blocks
    ensures b in em && EmittedOk(f, off, frameSize, b, em[b])
    ensures TextAt(prog, pc, TextOf(b, f.term[b], em[b]))
    ensures FindFrom(prog, b, 0) == Some(pc)
    ensures b == f.blocks[0] ==> pc == 1 + |enter|
  {
    hide EmittedOk, EntersWith, AllEncodable, StraightLine, TextOf, FindFrom;
    var i :| 0 <= i < |f.blocks| && f.blocks[i] == b;
    var text := TextOf(b, f.term[b], em[b]);
    var rest := TextsSplit(f, f.blocks, em, i);
    var head := [Label(name)] + enter;
    var pre := head + Texts(f, f.blocks[..i], em);
    Regroup(head, Texts(f, f.blocks[..i], em), text, rest, tail);
    pc := |pre|;
    NoLabelBefore(f, off, frameSize, name, enter, em, i);
    TextHead(b, f.term[b], em[b]);
    PlaceFound(prog, pre, text, rest + tail, b);
    assert i == 0 ==> f.blocks[..i] == [];
  }

  // ----- phis on the edges -----

  lemma {:induction false} ParallelMem(l: Layout, s: IrState, cs: seq<Copy>)
    ensures ParallelCopy(l, s, cs).mem == s.mem && ParallelCopy(l, s, cs).trace == s.trace
    decreases |cs|
  {
    if cs != [] {
      ParallelMem(l, s, cs[..|cs| - 1]);
    }
  }

  /** What a parallel assignment leaves alone. */
  lemma {:induction false} ParallelOther(l: Layout, s: IrState, cs: seq<Copy>, i: Id)
    requires i !in CopyTargets(cs)
    ensures i in ParallelCopy(l, s, cs).env <==> i in s.env
    ensures i in s.env ==> ParallelCopy(l, s, cs).env[i] == s.env[i]
    decreases |cs|
  {
    if cs != [] {
      var last := cs[|cs| - 1];
      assert last in cs && last.0 in CopyTargets(cs);
      assert CopyTargets(cs[..|cs| - 1]) <= CopyTargets(cs);
      ParallelOther(l, s, cs[..|cs| - 1], i);
    }
  }

  lemma {:induction false} ParallelAppend(l: Layout, s: IrState, a: seq<Copy>, b: seq<Copy>, i: Id)
    ensures i in CopyTargets(b) ==>
              (i in ParallelCopy(l, s, a + b).env <==> i in ParallelCopy(l, s, b).env)
              && (i in ParallelCopy(l, s, b).env ==> ParallelCopy(l, s, a + b).env[i] == ParallelCopy(l, s, b).env[i])
    ensures i !in CopyTargets(b) ==>
              (i in ParallelCopy(l, s, a + b).env <==> i in ParallelCopy(l, s, a).env)
              && (i in ParallelCopy(l, s, a).env ==> ParallelCopy(l, s, a + b).env[i] == ParallelCopy(l, s, a).env[i])
    decreases |b|
  {
    if b == [] {
      assert a + b == a;
    } else {
      var init, last := b[..|b| - 1], b[|b| - 1];
      assert (a + b)[..|a + b| - 1] == a + init;
      assert forall c :: c in b <==> c in init || c == last;
      assert CopyTargets(b) == CopyTargets(init) + {last.0};
      ParallelAppend(l, s, a, init, i);
    }
  }

  /** After the copies for both edges the phis of the taken edge are right. */
  lemma EdgeAgrees(l: Layout, s: IrState, st: State, a: seq<Copy>, b: seq<Copy>, first: bool)
    requires Agree(l, ParallelCopy(l, s, a + b), st)
    requires a == b || CopyTargets(a) !! CopyTargets(b)
    ensures Agree(l, if first then AfterEdge(l, s, a, b) else AfterEdge(l, s, b, a), st)
  {
    hide Agree, ParallelCopy;
    var s' := if first then AfterEdge(l, s, a, b) else AfterEdge(l, s, b, a);
    ParallelMem(l, s, a + b);
    ParallelMem(l, s, a);
    ParallelMem(l, s, b);
    forall i | i in s'.env ensures i in ParallelCopy(l, s, a + b).env && s'.env[i] == ParallelCopy(l, s, a + b).env[i] {
      ParallelAppend(l, s, a, b, i);
      if i !in CopyTargets(a) {
        ParallelOther(l, s, a, i);
      }
      if i !in CopyTargets(b) {
        ParallelOther(l, s, b, i);
      }
    }
    FewerAgree(l, ParallelCopy(l, s, a + b), s', st);
  }

  lemma EdgesApart(f: Function, t: Block, u: Block, from: Block)
    requires HasBlocks(f) && ControlOk(f)
    ensures CopiesInto(f, t, from) == CopiesInto(f, u, from) || CopyTargets(CopiesInto(f, t, from)) !! CopyTargets(CopiesInto(f, u, from))
  {
    if t != u && t in f.phis && u in f.phis {
      EdgeTargets(f.phis[t], from);
      EdgeTargets(f.phis[u], from);
    }
  }

  lemma {:induction false} EdgeTargets(phis: seq<Phi>, from: Block)
    ensures forall c | c in EdgeCopies(phis, from) :: exists i :: 0 <= i < |phis| && phis[i].id == c.0
    decreases |phis|
  {
    if phis != [] {
      var init := phis[..|phis| - 1];
      EdgeTargets(init, from);
      forall c | c in EdgeCopies(phis, from) ensures exists i :: 0 <= i < |phis| && phis[i].id == c.0 {
        if c in EdgeCopies(init, from) {
          var i :| 0 <= i < |init| && init[i].id == c.0;
          assert phis[i].id == c.0;
        } else {
          assert phis[|phis| - 1].id == c.0;
        }
      }
    }
  }

  lemma CopiesForOne(f: Function, t: Block, from: Block)
    ensures CopiesFor(f.phis, [t], from) == CopiesInto(f, t, from)
  {
    assert [t][..0] == [];
  }

  lemma CopiesForTwo(f: Function, t: Block, u: Block, from: Block)
    ensures CopiesFor(f.phis, [t, u], from) == CopiesInto(f, t, from) + CopiesInto(f, u, from)
  {
    assert [t, u][..1] == [t];
    CopiesForOne(f, t, from);
  }

  // ----- one block -----

  /** The machine is where the function is: at the block with agreeing values, or back at
      the caller with its registers restored and the result in a0. */
  ghost predicate Here(l: Layout, prog: seq<Asm>, m: IrMachine, mm: Machine) {
    match m
    case In(b, s) => mm.At? && FindFrom(prog, b, 0) == Some(mm.pc) && Agree(l, s, mm.st)
    case Finished(v, mem, trace) => mm.Exited? && mm.st.trace == trace && Back(l, mm.st, v, mem)
  }

  ghost predicate Back(l: Layout, st: State, v: Option<int>, mem: Memory) {
    && (v.Some? ==> Get(st.regs, A(0)) == v.value)
    && Get(st.regs, Sp) == l.fp
    && Get(st.regs, Ra) == LoadValue(l.saved, Ptr, l.fp - 8)
    && Get(st.regs, Fp) == LoadValue(l.saved, Ptr, l.fp - 16)
    && forall a | !Private(l, a) :: ByteAt(st.mem, a) == ByteAt(mem, a)
  }

  lemma StraightParts(a: seq<Asm>, b: seq<Asm>)
    requires StraightLine(a) && StraightLine(b)
    ensures StraightLine(a + b)
  {
  }

  lemma BodyRuns(l: Layout, f: Function, off: map<Id, int>, frameSize: nat, prog: seq<Asm>, b: Block, e: Emitted, pc: nat, s: IrState, st: State)
    returns (n: nat, st1: State)
    requires HasBlocks(f) && b in f.blocks && EmittedOk(f, off, frameSize, b, e)
    requires TextAt(prog, pc, TextOf(b, f.term[b], e))
    requires Fits(l, off, f.ty) && Agree(l, s, st) && SafeAll(l, s, f.body[b])
    ensures n >= 1 && Steps(prog, At(pc, st), n) == At(pc + 1 + |e.body|, st1) && Agree(l, StepAll(l, s, f.body[b]), st1)
  {
    hide Agree, SafeAll, StepAll, LayoutOk, CalleesObey, Exec, BranchText, Copies, Loads, Leaves, KeepsFrame, AllEncodable, AllocasFit, StraightLine;
    TextParts(prog, pc, [Label(b)] + e.body, BranchText(f.term[b], e));
    RunStraightLabel(prog, pc, b, e.body, st);
    n, st1 := 1 + |e.body|, Exec(st, e.body);
  }

  lemma RunStraightLabel(prog: seq<Asm>, pc: nat, t: int, code: seq<Asm>, st: State)
    requires TextAt(prog, pc, [Label(t)] + code) && StraightLine(code)
    ensures Steps(prog, At(pc, st), 1 + |code|) == At(pc + 1 + |code|, Exec(st, code))
  {
    hide Exec;
    TextParts(prog, pc, [Label(t)], code);
    RunOne(prog, pc, Label(t), st);
    assert Steps(prog, At(pc, st), 0) == At(pc, st);
    RunStraight(prog, pc + 1, code, st);
    StepsAdd(prog, At(pc, st), 1, |code|);
  }

  lemma BrRuns(l: Layout, f: Function, off: map<Id, int>, frameSize: nat, prog: seq<Asm>, b: Block, e: Emitted, at: nat, s1: IrState, st1: State)
    returns (n: nat)
    requires HasBlocks(f) && ControlOk(f) && b in f.blocks && EmittedOk(f, off, frameSize, b, e) && f.term[b].Br?
    requires TextAt(prog, at, BranchText(f.term[b], e))
    requires Fits(l, off, f.ty) && Agree(l, s1, st1)
    requires var cs := CopiesFor(f.phis, Targets(f.term[b]), b); CopiesTyped(l, cs) && CopyFree(cs)
    requires FindFrom(prog, f.term[b].target, 0).Some?
    ensures Here(l, prog, In(f.term[b].target, ParallelCopy(l, s1, CopiesInto(f, f.term[b].target, b))), Steps(prog, At(at, st1), n))
  {
    hide Agree, Fits, Exec, CopiesTyped, CopyFree, ControlOk, EmittedOk, CopiesFor, CopiesInto, SequentialCopy, ParallelCopy, FindFrom, TextAt, StraightLine, Copies, Steps;
    var t := f.term[b].target;
    var cs := CopiesFor(f.phis, [t], b);
    CopiesForOne(f, t, b);
    TextParts(prog, at, e.copies, [B(t)]);
    BrEmitted(l, f, off, frameSize, b, e, s1, st1);
    RunStraight(prog, at, e.copies, st1);
    FreeIsParallel(l, s1, cs);
    LastJump(prog, At(at, st1), |e.copies|, at + |e.copies|, t, Exec(st1, e.copies));
    n := |e.copies| + 1;
  }

  lemma BrEmitted(l: Layout, f: Function, off: map<Id, int>, frameSize: nat, b: Block, e: Emitted, s: IrState, st: State)
    requires HasBlocks(f) && b in f.blocks && EmittedOk(f, off, frameSize, b, e) && f.term[b].Br?
    requires Fits(l, off, f.ty) && Agree(l, s, st) && CopiesTyped(l, CopiesFor(f.phis, [f.term[b].target], b))
    ensures StraightLine(e.copies) && Agree(l, SequentialCopy(l, s, CopiesFor(f.phis, [f.term[b].target], b)), Exec(st, e.copies))
  {
    hide Agree, Fits, Exec, CopiesTyped, BodyOk, CopiesFor, SequentialCopy, StraightLine, AllEncodable;
  }

  /** After n steps the machine stands at a branch. */
  lemma LastJump(prog: seq<Asm>, m: Machine, n: nat, pc: nat, t: int, st: State)
    requires Steps(prog, m, n) == At(pc, st) && TextAt(prog, pc, [B(t)])
    ensures Steps(prog, m, n + 1) == GoTo(prog, t, st)
  {
    OneAt(prog, pc, B(t));
  }

  lemma OneAt(prog: seq<Asm>, pc: nat, i: Asm)
    requires TextAt(prog, pc, [i])
    ensures pc < |prog| && prog[pc] == i
  {
    assert prog[pc + 0] == [i][0];
  }

  lemma PickBit(st: State, v: int)
    requires Get(st.regs, T(0)) % 2 == v
    ensures Get(Exec1(st, PICK_BIT).regs, T(1)) == v && OnlyTemporaries(st, Exec1(st, PICK_BIT))
  {
  }

  lemma CondRuns(l: Layout, f: Function, off: map<Id, int>, frameSize: nat, prog: seq<Asm>, b: Block, e: Emitted, at: nat, s1: IrState, st1: State)
    returns (n: nat, st2: State)
    requires HasBlocks(f) && ControlOk(f) && b in f.blocks && EmittedOk(f, off, frameSize, b, e) && f.term[b].CondBr?
    requires TextAt(prog, at, BranchText(f.term[b], e))
    requires Fits(l, off, f.ty) && Agree(l, s1, st1)
    requires var cs := CopiesFor(f.phis, Targets(f.term[b]), b);
             CopiesTyped(l, cs) && CopyFree(cs) && TypedAs(l, ParallelCopy(l, s1, cs), f.term[b].cond, I1)
    ensures var cs := CopiesFor(f.phis, Targets(f.term[b]), b); var s2 := ParallelCopy(l, s1, cs);
            && Agree(l, s2, st2)
            && Steps(prog, At(at, st1), n) == GoTo(prog, if Value(l, s2, f.term[b].cond) != 0 then f.term[b].ifTrue else f.term[b].ifFalse, st2)
  {
    hide Agree, LayoutOk, CalleesObey, Exec, Exec1, CopiesTyped, CopyFree, SimulatesAll, AllEncodable, AllocasFit, CopiesFor, SequentialCopy, ParallelCopy,
      OnlyTemporaries, Loads, GoTo, Value, Known, TypeOf;
    var v := f.term[b].cond;
    var cs := CopiesFor(f.phis, Targets(f.term[b]), b);
    var s2 := ParallelCopy(l, s1, cs);
    FreeIsParallel(l, s1, cs);
    var code := e.copies + e.load;
    var rest := [PICK_BIT, Bnez(T(1), f.term[b].ifTrue), B(f.term[b].ifFalse)];
    ExecAppend(st1, e.copies, e.load);
    UseLoads(off, f.ty, e.load, v, T(0), l, s2, Exec(st1, e.copies));
    var st3 := Exec(st1, code);
    StraightParts(e.copies, e.load);
    TextParts(prog, at, code, rest);
    RunStraight(prog, at, code, st1);
    PickBit(st3, Value(l, s2, v));
    st2 := Exec1(st3, PICK_BIT);
    AgreeTemporaries(l, s2, st3, st2);
    BranchBit(prog, at + |code|, st3, Value(l, s2, v), f.term[b].ifTrue, f.term[b].ifFalse);
    var j: nat := if Value(l, s2, v) != 0 then 2 else 3;
    StepsAdd(prog, At(at, st1), |code|, j);
    n := |code| + j;
  }

  /** bstrpick.d, bnez and b after the condition is in t0. */
  lemma BranchBit(prog: seq<Asm>, pc: nat, st: State, v: int, yes: Block, no: Block)
    requires TextAt(prog, pc, [PICK_BIT, Bnez(T(1), yes), B(no)])
    requires Get(Exec1(st, PICK_BIT).regs, T(1)) == v
    ensures v != 0 ==> Steps(prog, At(pc, st), 2) == GoTo(prog, yes, Exec1(st, PICK_BIT))
    ensures v == 0 ==> Steps(prog, At(pc, st), 3) == GoTo(prog, no, Exec1(st, PICK_BIT))
  {
    hide GoTo, Exec1;
    var text := [PICK_BIT, Bnez(T(1), yes), B(no)];
    assert prog[pc + 0] == text[0] && prog[pc + 1] == text[1] && prog[pc + 2] == text[2];
    StepsThree(prog, At(pc, st));
  }

  lemma StepsThree(prog: seq<Asm>, m: Machine)
    ensures Steps(prog, m, 2) == MachineStep(prog, MachineStep(prog, m))
    ensures Steps(prog, m, 3) == MachineStep(prog, MachineStep(prog, MachineStep(prog, m)))
  {
    hide MachineStep;
    assert Steps(prog, m, 0) == m;
    assert Steps(prog, m, 1) == MachineStep(prog, m);
  }

  lemma RetRuns(l: Layout, f: Function, off: map<Id, int>, frameSize: nat, prog: seq<Asm>, b: Block, e: Emitted, at: nat, s1: IrState, st1: State)
    returns (n: nat)
    requires HasBlocks(f) && b in f.blocks && EmittedOk(f, off, frameSize, b, e) && f.term[b].Ret?
    requires TextAt(prog, at, BranchText(f.term[b], e))
    requires Fits(l, off, f.ty) && Agree(l, s1, st1) && l.sp == l.fp - frameSize && frameSize >= 16
    requires var v := f.term[b].val; v.Some? ==> Known(l, s1, v.value) && TypeOf(l, v.value) != I1
    ensures var v := f.term[b].val;
            Here(l, prog, Finished(if v.Some? then Some(Value(l, s1, v.value)) else None, s1.mem, s1.trace), Steps(prog, At(at, st1), n))
  {
    hide LayoutOk, CalleesObey, Exec, SimulatesAll, AllEncodable, AllocasFit, Loads, Leaves, Agree, KeepsFrame, Back, SafeAll, CopiesFor;
    var v := f.term[b].val;
    var code := e.load + e.leave;
    var st2 := Exec(st1, e.load);
    if v.Some? {
      UseLoads(off, f.ty, e.load, v.value, A(0), l, s1, st1);
    } else {
      LoadKeepsFrame(l, s1, st1, e.load);
    }
    ExecAppend(st1, e.load, e.leave);
    StraightParts(e.load, e.leave);
    LeavesBack(l, off, f.ty, frameSize, s1, st2, e.leave, if v.Some? then Some(Value(l, s1, v.value)) else None);
    TextParts(prog, at, code, [Jr(Ra), Jr(Ra)]);
    RunStraight(prog, at, code, st1);
    assert prog[at + |code| + 0] == [Jr(Ra), Jr(Ra)][0];
    n := |code| + 1;
  }

  lemma LeavesBack(l: Layout, off: map<Id, int>, ty: map<Id, Type>, frameSize: nat, s: IrState, st: State, code: seq<Asm>, v: Option<int>)
    requires Leaves(off, ty, frameSize, code) && Fits(l, off, ty) && Agree(l, s, st) && l.sp == l.fp - frameSize && frameSize >= 16
    requires v.Some? ==> Get(st.regs, A(0)) == v.value
    ensures Exec(st, code).trace == s.trace && Back(l, Exec(st, code), v, s.mem)
  {
    hide Exec, LayoutOk, CalleesObey, LoadValue, Private, ByteAt;
    assert LeftBy(l, st, Exec(st, code));
  }

  lemma LoadKeepsFrame(l: Layout, s: IrState, st: State, code: seq<Asm>)
    requires Agree(l, s, st) && KeepsFrame(code)
    ensures Agree(l, s, Exec(st, code))
  {
    hide Exec, LoadValue, Private, ByteAt;
    AgreeRegs(l, s, st, Exec(st, code));
  }

  /** A safe block: the machine comes to where the function goes. */
  lemma BlockRuns(l: Layout, f: Function, off: map<Id, int>, frameSize: nat, name: int, prog: seq<Asm>,
                  enter: seq<Asm>, em: map<Block, Emitted>, tail: seq<Asm>, b: Block, s: IrState, mm: Machine) returns (n: nat)
    requires Linked(f, off, frameSize, name, prog, enter, em, tail) && b in f.blocks
    requires Fits(l, off, f.ty) && l.sp == l.fp - frameSize
    requires Here(l, prog, In(b, s), mm) && BlockSafe(l, f, b, s)
    ensures n >= 1 && Here(l, prog, RunBlock(l, f, b, s), Steps(prog, mm, n))
  {
    hide Agree, LayoutOk, CalleesObey, SafeAll, StepAll, EmittedOk, FunctionText, CopiesTyped, CopyFree, BranchText, Back, Value, TypedAs, Known, TypeOf,
      AfterEdge, CopiesInto, CopiesFor, ParallelCopy, FindFrom, ControlOk;
    var pc := BlockPlace(f, off, frameSize, name, prog, enter, em, tail, b);
    var e, t := em[b], f.term[b];
    var n1, st1 := BodyRuns(l, f, off, frameSize, prog, b, e, pc, s, mm.st);
    var s1 := StepAll(l, s, f.body[b]);
    var at := pc + 1 + |e.body|;
    TextParts(prog, pc, [Label(b)] + e.body, BranchText(t, e));
    match t {
      case Br(target) =>
        TargetFound(f, off, frameSize, name, prog, enter, em, tail, b, target);
        var n2 := BrRuns(l, f, off, frameSize, prog, b, e, at, s1, st1);
        StepsAdd(prog, mm, n1, n2);
        n := n1 + n2;
      case CondBr(v, yes, no) =>
        TargetFound(f, off, frameSize, name, prog, enter, em, tail, b, yes);
        TargetFound(f, off, frameSize, name, prog, enter, em, tail, b, no);
        var n2, st2 := CondRuns(l, f, off, frameSize, prog, b, e, at, s1, st1);
        CopiesForTwo(f, yes, no, b);
        EdgesApart(f, yes, no, b);
        EdgeAgrees(l, s1, st2, CopiesInto(f, yes, b), CopiesInto(f, no, b), Value(l, s1, v) != 0);
        StepsAdd(prog, mm, n1, n2);
        n := n1 + n2;
      case Ret(v) =>
        var n2 := RetRuns(l, f, off, frameSize, prog, b, e, at, s1, st1);
        StepsAdd(prog, mm, n1, n2);
        n := n1 + n2;
    }
  }

  lemma TargetFound(f: Function, off: map<Id, int>, frameSize: nat, name: int, prog: seq<Asm>,
                    enter: seq<Asm>, em: map<Block, Emitted>, tail: seq<Asm>, b: Block, t: Block)
    requires Linked(f, off, frameSize, name, prog, enter, em, tail) && b in f.blocks && t in Targets(f.term[b])
    ensures FindFrom(prog, t, 0).Some?
  {
    hide FunctionText, EmittedOk, TextOf;
    assert t in f.blocks;
    var pc := BlockPlace(f, off, frameSize, name, prog, enter, em, tail, t);
  }

  // ----- whole runs -----

  /** From the call to the first block. */
  lemma EntryRuns(l: Layout, f: Function, off: map<Id, int>, frameSize: nat, name: int, prog: seq<Asm>,
                  enter: seq<Asm>, em: map<Block, Emitted>, tail: seq<Asm>, vals: seq<int>, st: State) returns (n: nat)
    requires Linked(f, off, frameSize, name, prog, enter, em, tail)
    requires Fits(l, off, f.ty) && Entry(l, IrState(map[], st.mem, st.trace), st, frameSize) && ArgsHeld(f.ty, f.args, vals, st)
    ensures Here(l, prog, In(f.blocks[0], IrState(ArgEnv(f.args, vals), st.mem, st.trace)), Steps(prog, At(0, st), n))
  {
    hide Agree, LayoutOk, CalleesObey, EmittedOk, Exec, Texts, TextOf, SavedRight, Represents, FindFrom, ControlOk, AllEncodable, ArgEnv;
    var pc := BlockPlace(f, off, frameSize, name, prog, enter, em, tail, f.blocks[0]);
    EnterPlace(prog, name, enter, Texts(f, f.blocks, em), tail);
    RunStraightLabel(prog, 0, name, enter, st);
    n := 1 + |enter|;
  }

  lemma EnterPlace(prog: seq<Asm>, name: int, enter: seq<Asm>, texts: seq<Asm>, tail: seq<Asm>)
    requires prog == [Label(name)] + enter + texts + tail
    ensures TextAt(prog, 0, [Label(name)] + enter)
  {
    assert prog == ([Label(name)] + enter) + (texts + tail);
    TextParts(prog, 0, [Label(name)] + enter, texts + tail);
  }

  lemma {:induction false} RunInBlocks(l: Layout, f: Function, m: IrMachine, n: nat)
    requires HasBlocks(f) && ControlOk(f) && (m.In? ==> m.block in f.blocks)
    ensures Run(l, f, m, n).In? ==> Run(l, f, m, n).block in f.blocks
    decreases n
  {
    if n > 0 {
      RunInBlocks(l, f, m, n - 1);
      var m' := Run(l, f, m, n - 1);
      assert m'.In? ==> forall t | t in Targets(f.term[m'.block]) :: t in f.blocks;
    }
  }

  lemma {:induction false} StaysExited(prog: seq<Asm>, m: Machine, n: nat)
    requires m.Exited?
    ensures Steps(prog, m, n) == m
    decreases n
  {
    if n > 0 {
      StaysExited(prog, m, n - 1);
    }
  }

  /** Every safe run of the function is a run of the generated code, with at least one step for each block. */
  lemma {:induction false} CompiledRun(l: Layout, f: Function, off: map<Id, int>, frameSize: nat, name: int, prog: seq<Asm>,
                                       enter: seq<Asm>, em: map<Block, Emitted>, tail: seq<Asm>, vals: seq<int>, st: State, n: nat)
    returns (k: nat)
    requires Linked(f, off, frameSize, name, prog, enter, em, tail)
    requires Fits(l, off, f.ty) && Entry(l, IrState(map[], st.mem, st.trace), st, frameSize) && ArgsHeld(f.ty, f.args, vals, st)
    requires RunSafe(l, f, In(f.blocks[0], IrState(ArgEnv(f.args, vals), st.mem, st.trace)), n)
    ensures k >= n && Here(l, prog, Run(l, f, In(f.blocks[0], IrState(ArgEnv(f.args, vals), st.mem, st.trace)), n), Steps(prog, At(0, st), k))
    decreases n
  {
    hide Agree, LayoutOk, CalleesObey, FunctionText, ArgEnv, Represents, BlockSafe, RunBlock, FindFrom, SavedRight, Steps, Back, ControlOk;
    var start := In(f.blocks[0], IrState(ArgEnv(f.args, vals), st.mem, st.trace));
    if n == 0 {
      k := EntryRuns(l, f, off, frameSize, name, prog, enter, em, tail, vals, st);
    } else {
      k := CompiledRun(l, f, off, frameSize, name, prog, enter, em, tail, vals, st, n - 1);
      var m := Run(l, f, start, n - 1);
      RunInBlocks(l, f, start, n - 1);
      var n1 := 1;
      if m.In? {
        n1 := BlockRuns(l, f, off, frameSize, name, prog, enter, em, tail, m.block, m.s, Steps(prog, At(0, st), k));
      } else {
        StaysExited(prog, Steps(prog, At(0, st), k), 1);
      }
      StepsAdd(prog, At(0, st), k, n1);
      k := k + n1;
    }
  }

  /** The frame that a call makes. */
  ghost function FrameOf(st: State, off: map<Id, int>, ty: map<Id, Type>, frameSize: nat): Layout {
    var sp := Get(st.regs, Sp);
    Layout(sp, sp - frameSize, off, ty, st.globals,
           StoreBytes(StoreBytes(st.mem, sp - 8, 8, Get(st.regs, Ra)), sp - 16, 8, Get(st.regs, Fp)), st.callees)
  }

  predicate Word64(x: int) {
    -TWO_63 <= x < TWO_63
  }

  /** A call as the caller makes it: arguments in registers, room on the stack. What is called from there keeps to the calling convention. */
  ghost predicate Called(f: Function, off: map<Id, int>, frameSize: nat, vals: seq<int>, st: State) {
    && ArgsHeld(f.ty, f.args, vals, st) && Room(Get(st.regs, Sp), frameSize)
    && Word64(Get(st.regs, Ra)) && Word64(Get(st.regs, Fp)) && (forall g | g in st.globals :: Word64(st.globals[g]))
    && CalleesObey(FrameOf(st, off, f.ty, frameSize))
  }

  /** Compiling a function is correct: called on a machine, the code does what the function does,
      as long as the run is safe, and when the function returns so does the code, with the result
      in a0 and the caller's sp, fp and ra. */
  lemma GeneratedRuns(f: Function, off: map<Id, int>, frameSize: nat, name: int, prog: seq<Asm>,
                      enter: seq<Asm>, em: map<Block, Emitted>, tail: seq<Asm>, vals: seq<int>, st: State, n: nat) returns (k: nat)
    requires HasBlocks(f) && Allocated(f, off, frameSize) && FunctionText(f, off, frameSize, name, prog, enter, em, tail)
    requires ControlOk(f) && name !in f.blocks && f.blocks != [] && Typed(f, off) && Called(f, off, frameSize, vals, st)
    requires RunSafe(FrameOf(st, off, f.ty, frameSize), f, In(f.blocks[0], IrState(ArgEnv(f.args, vals), st.mem, st.trace)), n)
    ensures RunsThere(f, off, frameSize, prog, vals, st, n, k)
  {
    hide FunctionText, Agree, RunSafe, Represents, ControlOk, Steps, Run, ArgEnv, StoreBytes, LoadValue, ByteAt, Private, Stacked, Items, Total;
    var l := FrameOf(st, off, f.ty, frameSize);
    AllocatedLayout(f, off, frameSize, l);
    SavedReadBack(l, st);
    FrameAtLeast(f, off, frameSize);
    k := CompiledRun(l, f, off, frameSize, name, prog, enter, em, tail, vals, st, n);
  }

  /** After k steps of the machine, one or more for each of n blocks of the function: the same place, or both have returned. */
  ghost predicate RunsThere(f: Function, off: map<Id, int>, frameSize: nat, prog: seq<Asm>, vals: seq<int>, st: State, n: nat, k: nat)
    requires HasBlocks(f) && f.blocks != [] && |vals| == |f.args|
  {
    var l := FrameOf(st, off, f.ty, frameSize);
    var m, mm := Run(l, f, In(f.blocks[0], IrState(ArgEnv(f.args, vals), st.mem, st.trace)), n), Steps(prog, At(0, st), k);
    && k >= n && Here(l, prog, m, mm)
    && (m.Finished? ==> Get(mm.st.regs, Sp) == Get(st.regs, Sp) && Get(mm.st.regs, Fp) == Get(st.regs, Fp) && Get(mm.st.regs, Ra) == Get(st.regs, Ra))
  }

  /** The text does what the function does in every call, as long as the run is safe. */
  ghost predicate Implements(f: Function, off: map<Id, int>, frameSize: nat, prog: seq<Asm>)
    requires HasBlocks(f) && f.blocks != []
  {
    forall vals, st, n: nat |
      Called(f, off, frameSize, vals, st) && RunSafe(FrameOf(st, off, f.ty, frameSize), f, In(f.blocks[0], IrState(ArgEnv(f.args, vals), st.mem, st.trace)), n) ::
      exists k: nat :: RunsThere(f, off, frameSize, prog, vals, st, n, k)
  }

  lemma TextImplements(f: Function, off: map<Id, int>, frameSize: nat, name: int, prog: seq<Asm>, enter: seq<Asm>, em: map<Block, Emitted>, tail: seq<Asm>)
    requires HasBlocks(f) && Allocated(f, off, frameSize) && FunctionText(f, off, frameSize, name, prog, enter, em, tail)
    requires ControlOk(f) && name !in f.blocks && f.blocks != [] && Typed(f, off)
    ensures Implements(f, off, frameSize, prog)
  {
    hide Allocated, FunctionText, ControlOk, Typed, RunSafe, RunsThere;
    forall vals, st, n: nat |
      Called(f, off, frameSize, vals, st) && RunSafe(FrameOf(st, off, f.ty, frameSize), f, In(f.blocks[0], IrState(ArgEnv(f.args, vals), st.mem, st.trace)), n)
      ensures exists k: nat :: RunsThere(f, off, frameSize, prog, vals, st, n, k)
    {
      var k := GeneratedRuns(f, off, frameSize, name, prog, enter, em, tail, vals, st, n);
    }
  }

  /** Generated code is a callee that its callers can rely on: called from a frame l with room below it, it returns with sp and fp as they
      were; what it leaves in memory is what the function leaves, outside the frame of the caller and the room, and the private part of that
      frame is as the function leaves it. */
  lemma GeneratedObeys(l: Layout, f: Function, off: map<Id, int>, frameSize: nat, prog: seq<Asm>, vals: seq<int>, st: State, n: nat, k: nat)
    requires HasBlocks(f) && f.blocks != [] && |vals| == |f.args| && RunsThere(f, off, frameSize, prog, vals, st, n, k)
    requires Allocated(f, off, frameSize) && Typed(f, off) && Called(f, off, frameSize, vals, st)
    requires Run(FrameOf(st, off, f.ty, frameSize), f, In(f.blocks[0], IrState(ArgEnv(f.args, vals), st.mem, st.trace)), n).Finished?
    requires Get(st.regs, Sp) == l.sp && st.callees == l.callees && l.callees.stackEnd <= l.sp - frameSize
    ensures var mm := Steps(prog, At(0, st), k);
            var m := Run(FrameOf(st, off, f.ty, frameSize), f, In(f.blocks[0], IrState(ArgEnv(f.args, vals), st.mem, st.trace)), n);
            && mm.Exited? && Get(mm.st.regs, Sp) == Get(st.regs, Sp) && Get(mm.st.regs, Fp) == Get(st.regs, Fp)
            && (m.val.Some? ==> Get(mm.st.regs, A(0)) == m.val.value) && mm.st.trace == m.trace
            && SamePublic(l, mm.st.mem, m.mem) && forall a | l.sp <= a < l.fp && Private(l, a) :: ByteAt(mm.st.mem, a) == ByteAt(m.mem, a)
  {
    hide Run, Steps, ArgEnv, StoreBytes, LoadValue, ByteAt, Allocated, RunSafe, Represents, Agree;
    var g := FrameOf(st, off, f.ty, frameSize);
    AllocatedLayout(f, off, frameSize, g);
    forall a | a < l.callees.stackEnd || l.sp <= a ensures !Private(g, a) {
    }
  }
}
