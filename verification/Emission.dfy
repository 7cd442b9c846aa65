/** The text of a whole function: prologue, one labelled piece per block, epilogue;
    and what each piece is good for. */
module Emission {
  import opened Common
  import opened Cfg
  import opened LoongArch
  import opened Frame
  import opened LowIr
  import opened Fragments
  import opened Allocation
  import opened PhiCopies

  // ----- entering and leaving -----

  /** The saved pair as the caller's registers say. */
  ghost predicate SavedRight(l: Layout, st: State) {
    l.saved == StoreBytes(StoreBytes(st.mem, l.fp - 8, 8, Get(st.regs, Ra)), l.fp - 16, 8, Get(st.regs, Fp))
  }

  /** On entry: sp is where the frame will hang, no values yet, memory as the program sees it. */
  ghost predicate Entry(l: Layout, s: IrState, st: State, frameSize: nat) {
    && LayoutOk(l) && l.sp == l.fp - frameSize && frameSize >= 16
    && Get(st.regs, Sp) == l.fp && st.globals == l.globals && st.callees == l.callees && SavedRight(l, st)
    && s.env == map[] && s.mem == st.mem && s.trace == st.trace
  }

  /** The frame is set up, and the argument registers are as they were. */
  ghost predicate Enters(off: map<Id, int>, ty: map<Id, Type>, frameSize: nat, code: seq<Asm>) {
    forall l, s, st | Fits(l, off, ty) && Entry(l, s, st, frameSize) ::
      Agree(l, s, Exec(st, code)) && SameArgs(st, Exec(st, code))
  }

  ghost predicate SameArgs(st: State, st': State) {
    forall n: nat :: Get(st'.regs, A(n)) == Get(st.regs, A(n))
  }

  /** The frame is gone, sp, fp and ra are the caller's, and the result register is as it was. */
  ghost predicate Leaves(off: map<Id, int>, ty: map<Id, Type>, frameSize: nat, code: seq<Asm>) {
    forall l, s, st | Fits(l, off, ty) && Agree(l, s, st) && l.sp == l.fp - frameSize && frameSize >= 16 ::
      LeftBy(l, st, Exec(st, code))
  }

  ghost predicate LeftBy(l: Layout, st: State, st': State) {
    && st'.mem == st.mem && st'.trace == st.trace && Get(st'.regs, A(0)) == Get(st.regs, A(0))
    && Get(st'.regs, Sp) == l.fp
    && Get(st'.regs, Ra) == LoadValue(l.saved, Ptr, l.fp - 8)
    && Get(st'.regs, Fp) == LoadValue(l.saved, Ptr, l.fp - 16)
  }

  /** Reading the saved pair back gives what was saved. */
  lemma SavedReadBack(l: Layout, st: State)
    requires SavedRight(l, st)
    requires -TWO_63 <= Get(st.regs, Ra) < TWO_63 && -TWO_63 <= Get(st.regs, Fp) < TWO_63
    ensures LoadValue(l.saved, Ptr, l.fp - 8) == Get(st.regs, Ra)
    ensures LoadValue(l.saved, Ptr, l.fp - 16) == Get(st.regs, Fp)
  {
    hide StoreBytes, LoadBytes;
    var ra, fp := Get(st.regs, Ra), Get(st.regs, Fp);
    var m := StoreBytes(st.mem, l.fp - 8, 8, ra);
    LoadValueStored(st.mem, Ptr, l.fp - 8, ra, ra);
    LoadValueStored(m, Ptr, l.fp - 16, fp, fp);
    forall b | l.fp - 8 <= b < l.fp ensures ByteAt(l.saved, b) == ByteAt(m, b) {
      StoreApart(m, l.fp - 16, 8, fp, b);
    }
    LoadValueSame(m, l.saved, Ptr, l.fp - 8);
  }

  /** Saving the pair and moving sp and fp makes an empty frame. */
  lemma FrameMade(l: Layout, s: IrState, st: State, frameSize: nat, st': State)
    requires Entry(l, s, st, frameSize) && SameSurroundings(st, st')
    requires st'.mem == l.saved && Get(st'.regs, Fp) == l.fp && Get(st'.regs, Sp) == l.sp
    ensures Agree(l, s, st')
  {
    hide StoreBytes, LoadValue, ByteAt;
    var ra, fp := Get(st.regs, Ra), Get(st.regs, Fp);
    var m := StoreBytes(st.mem, l.fp - 8, 8, ra);
    forall a | !Private(l, a) ensures ByteAt(st'.mem, a) == ByteAt(s.mem, a) {
      StoreApart(st.mem, l.fp - 8, 8, ra, a);
      StoreApart(m, l.fp - 16, 8, fp, a);
    }
  }

  const SAVE_PAIR: seq<Asm> := [St(Double, Ra, Sp, -8), St(Double, Fp, Sp, -16)]

  lemma PairSaved(l: Layout, s: IrState, st: State, frameSize: nat)
    requires Entry(l, s, st, frameSize)
    ensures Exec(st, SAVE_PAIR) == st.(mem := l.saved)
  {
    hide Exec, StoreBytes;
    ExecTwo(st, SAVE_PAIR[0], SAVE_PAIR[1]);
  }

  lemma EntersNear(off: map<Id, int>, ty: map<Id, Type>, frameSize: nat)
    ensures Enters(off, ty, frameSize, SAVE_PAIR + [AddiD(Fp, Sp, 0), AddiD(Sp, Sp, 0 - frameSize)])
  {
    hide Exec, StoreBytes, Agree, SAVE_PAIR;
    var i, j := AddiD(Fp, Sp, 0), AddiD(Sp, Sp, 0 - frameSize);
    forall l, s, st | Fits(l, off, ty) && Entry(l, s, st, frameSize)
      ensures Agree(l, s, Exec(st, SAVE_PAIR + [i, j])) && SameArgs(st, Exec(st, SAVE_PAIR + [i, j]))
    {
      PairSaved(l, s, st, frameSize);
      ExecAppend(st, SAVE_PAIR, [i, j]);
      ExecTwo(st.(mem := l.saved), i, j);
      FrameMade(l, s, st, frameSize, Exec(st, SAVE_PAIR + [i, j]));
    }
  }

  lemma EntersFar(off: map<Id, int>, ty: map<Id, Type>, frameSize: nat, code: seq<Asm>)
    requires SetsReg(code, T(0), frameSize)
    ensures Enters(off, ty, frameSize, code + SAVE_PAIR + [Alu(SubD, Sp, Sp, T(0)), Alu(AddD, Fp, Sp, T(0))])
  {
    hide Exec, StoreBytes, Agree, SAVE_PAIR, SetsReg, LayoutOk, CalleesObey;
    var i, j := Alu(SubD, Sp, Sp, T(0)), Alu(AddD, Fp, Sp, T(0));
    forall l, s, st | Fits(l, off, ty) && Entry(l, s, st, frameSize)
      ensures Agree(l, s, Exec(st, code + SAVE_PAIR + [i, j])) && SameArgs(st, Exec(st, code + SAVE_PAIR + [i, j]))
    {
      var st1 := st.(regs := st.regs[T(0) := frameSize]);
      UseSets(code, T(0), frameSize, st);
      ExecAppend(st, code, SAVE_PAIR);
      PairSaved(l, s, st1, frameSize);
      ExecAppend(st, code + SAVE_PAIR, [i, j]);
      PointersFar(l, s, st, frameSize);
    }
  }

  lemma PointersFar(l: Layout, s: IrState, st: State, frameSize: nat)
    requires Entry(l, s, st, frameSize)
    ensures var st' := Exec(st.(regs := st.regs[T(0) := frameSize], mem := l.saved), [Alu(SubD, Sp, Sp, T(0)), Alu(AddD, Fp, Sp, T(0))]);
            Agree(l, s, st') && SameArgs(st, st')
  {
    hide Exec, StoreBytes, Agree, S64;
    FrameRange(l);
    FrameRangeMoved(l, frameSize);
    var st1 := st.(regs := st.regs[T(0) := frameSize], mem := l.saved);
    var i, j := Alu(SubD, Sp, Sp, T(0)), Alu(AddD, Fp, Sp, T(0));
    ExecTwo(st1, i, j);
    FrameMade(l, s, st, frameSize, Exec(st1, [i, j]));
  }

  lemma FrameRangeMoved(l: Layout, frameSize: nat)
    requires LayoutOk(l) && l.sp == l.fp - frameSize
    ensures S64(l.fp - frameSize) == l.sp && S64(l.sp + frameSize) == l.fp
  {
  }

  const RESTORE_PAIR: seq<Asm> := [Ld(Double, Ra, Sp, -8), Ld(Double, Fp, Sp, -16)]

  lemma FrameRange(l: Layout)
    requires LayoutOk(l)
    ensures -TWO_63 <= l.sp <= l.fp < TWO_63
    ensures l.fp - l.sp >= 16 ==> S64(l.fp - 8) == l.fp - 8 && S64(l.fp - 16) == l.fp - 16
  {
  }

  lemma SavedSeen(l: Layout, s: IrState, st: State)
    requires Agree(l, s, st)
    ensures LoadValue(st.mem, Ptr, l.fp - 8) == LoadValue(l.saved, Ptr, l.fp - 8)
    ensures LoadValue(st.mem, Ptr, l.fp - 16) == LoadValue(l.saved, Ptr, l.fp - 16)
  {
    hide LoadBytes, Private, ByteAt, LoadValue;
    LoadValueSame(l.saved, st.mem, Ptr, l.fp - 8);
    LoadValueSame(l.saved, st.mem, Ptr, l.fp - 16);
  }

  lemma PairRestored(l: Layout, s: IrState, st: State, st': State)
    requires LayoutOk(l) && l.fp - l.sp >= 16 && Agree(l, s, st)
    requires st'.mem == st.mem && st'.trace == st.trace && Get(st'.regs, Sp) == l.fp && Get(st'.regs, A(0)) == Get(st.regs, A(0))
    ensures LeftBy(l, st, Exec(st', RESTORE_PAIR))
  {
    hide Exec, LoadValue, LayoutOk, Agree, S64, RESTORE_PAIR;
    FrameRange(l);
    PairReadBack(st', l.fp);
    SavedSeen(l, s, st);
  }

  lemma PairReadBack(st: State, fp: int)
    requires Get(st.regs, Sp) == fp && S64(fp - 8) == fp - 8 && S64(fp - 16) == fp - 16
    ensures var st' := Exec(st, RESTORE_PAIR);
            && st'.mem == st.mem && st'.trace == st.trace && Get(st'.regs, A(0)) == Get(st.regs, A(0)) && Get(st'.regs, Sp) == fp
            && Get(st'.regs, Ra) == LoadValue(st.mem, Ptr, fp - 8) && Get(st'.regs, Fp) == LoadValue(st.mem, Ptr, fp - 16)
  {
    hide Exec, LoadValue, LoadResult, S64;
    ExecTwo(st, RESTORE_PAIR[0], RESTORE_PAIR[1]);
    PairLoaded(st.mem, fp);
  }

  lemma PairLoaded(m: Memory, fp: int)
    ensures LoadResult(m, Double, fp - 8) == LoadValue(m, Ptr, fp - 8)
    ensures LoadResult(m, Double, fp - 16) == LoadValue(m, Ptr, fp - 16)
  {
  }

  lemma LeavesNear(off: map<Id, int>, ty: map<Id, Type>, frameSize: nat)
    ensures Leaves(off, ty, frameSize, [AddiD(Sp, Sp, frameSize)] + RESTORE_PAIR)
  {
    hide Exec, LeftBy, RESTORE_PAIR;
    var i := AddiD(Sp, Sp, frameSize);
    forall l, s, st | Fits(l, off, ty) && Agree(l, s, st) && l.sp == l.fp - frameSize && frameSize >= 16
      ensures LeftBy(l, st, Exec(st, [i] + RESTORE_PAIR))
    {
      ExecAppend(st, [i], RESTORE_PAIR);
      ExecOne(st, i);
      PairRestored(l, s, st, Exec1(st, i));
    }
  }

  lemma LeavesFar(off: map<Id, int>, ty: map<Id, Type>, frameSize: nat, code: seq<Asm>)
    requires SetsReg(code, T(0), frameSize)
    ensures Leaves(off, ty, frameSize, code + [Alu(AddD, Sp, Sp, T(0))] + RESTORE_PAIR)
  {
    hide Exec, LeftBy, RESTORE_PAIR, SetsReg, LoadValue, ByteAt, Private;
    var i := Alu(AddD, Sp, Sp, T(0));
    forall l, s, st | Fits(l, off, ty) && Agree(l, s, st) && l.sp == l.fp - frameSize && frameSize >= 16
      ensures LeftBy(l, st, Exec(st, code + [i] + RESTORE_PAIR))
    {
      var st1 := st.(regs := st.regs[T(0) := frameSize]);
      UseSets(code, T(0), frameSize, st);
      ExecAppend(st, code, [i]);
      ExecOne(st1, i);
      ExecAppend(st, code + [i], RESTORE_PAIR);
      PairRestored(l, s, st, Exec1(st1, i));
    }
  }

  // ----- arguments -----

  /** The first n arguments, from the argument registers. */
  ghost function ArgEnv(args: seq<Id>, vals: seq<int>): map<Id, int>
    requires |vals| == |args|
  {
    if args == [] then map[]
    else ArgEnv(args[..|args| - 1], vals[..|args| - 1])[args[|args| - 1] := vals[|args| - 1]]
  }

  ghost predicate ArgsHeld(ty: map<Id, Type>, args: seq<Id>, vals: seq<int>, st: State) {
    |vals| == |args| && forall n | 0 <= n < |args| :: args[n] in ty && Represents(ty[args[n]], Get(st.regs, A(n)), vals[n])
  }

  /** After the prologue every argument is in its slot. */
  ghost predicate EntersWith(off: map<Id, int>, ty: map<Id, Type>, frameSize: nat, args: seq<Id>, code: seq<Asm>) {
    forall l, s, st, vals | Fits(l, off, ty) && Entry(l, s, st, frameSize) && ArgsHeld(ty, args, vals, st) ::
      Agree(l, IrState(ArgEnv(args, vals), s.mem, s.trace), Exec(st, code)) && SameArgs(st, Exec(st, code))
  }

  lemma EntersNone(off: map<Id, int>, ty: map<Id, Type>, frameSize: nat, code: seq<Asm>)
    requires Enters(off, ty, frameSize, code)
    ensures EntersWith(off, ty, frameSize, [], code)
  {
    hide Agree, Exec, LayoutOk, CalleesObey, SameArgs, SavedRight;
    forall l, s, st, vals | Fits(l, off, ty) && Entry(l, s, st, frameSize) && ArgsHeld(ty, [], vals, st)
      ensures Agree(l, IrState(ArgEnv([], vals), s.mem, s.trace), Exec(st, code)) && SameArgs(st, Exec(st, code))
    {
      assert IrState(ArgEnv([], vals), s.mem, s.trace) == s;
    }
  }

  /** Storing changes no argument register. */
  ghost predicate KeepsArgs(code: seq<Asm>) {
    forall st {:trigger Exec(st, code)} :: SameArgs(st, Exec(st, code))
  }

  lemma KeepsArgsNear(i: Asm)
    requires i.St?
    ensures KeepsArgs([i])
  {
    hide Exec, StoreBytes;
    forall st ensures SameArgs(st, Exec(st, [i])) {
      ExecOne(st, i);
    }
  }

  lemma KeepsArgsFar(code: seq<Asm>, val: int, i: Asm, j: Asm)
    requires SetsReg(code, T(8), val) && i.Alu? && i.rd == T(8) && j.St?
    ensures KeepsArgs(code + [i] + [j])
  {
    hide Exec, StoreBytes, SetsReg, AluResult;
    forall st ensures SameArgs(st, Exec(st, code + [i] + [j])) {
      UseSets(code, T(8), val, st);
      ExecAppend(st, code, [i]);
      ExecOne(Exec(st, code), i);
      ExecAppend(st, code + [i], [j]);
      ExecOne(Exec(st, code + [i]), j);
    }
  }

  lemma EntersNext(off: map<Id, int>, ty: map<Id, Type>, frameSize: nat, args: seq<Id>, code: seq<Asm>, n: nat, c: seq<Asm>)
    requires n < |args| && EntersWith(off, ty, frameSize, args[..n], code)
    requires Stores(off, ty, c, args[n], A(n)) && KeepsArgs(c) && args[n] in off && args[n] in ty
    ensures EntersWith(off, ty, frameSize, args[..n + 1], code + c)
  {
    hide Agree, Exec, LayoutOk, CalleesObey, Represents, SavedRight;
    var as', as0 := args[..n + 1], args[..n];
    assert as'[..n] == as0;
    forall l, s, st, vals | Fits(l, off, ty) && Entry(l, s, st, frameSize) && ArgsHeld(ty, as', vals, st)
      ensures Agree(l, IrState(ArgEnv(as', vals), s.mem, s.trace), Exec(st, code + c)) && SameArgs(st, Exec(st, code + c))
    {
      forall k | 0 <= k < n ensures as0[k] in ty && Represents(ty[as0[k]], Get(st.regs, A(k)), vals[..n][k]) {
        assert as'[k] == as0[k];
      }
      assert as'[n] == args[n];
      assert ArgsHeld(ty, as0, vals[..n], st);
      var s1 := IrState(ArgEnv(as0, vals[..n]), s.mem, s.trace);
      assert Agree(l, s1, Exec(st, code)) && SameArgs(st, Exec(st, code));
      UseStores(off, ty, code, c, args[n], A(n), l, s1, st, vals[n]);
      ExecAppend(st, code, c);
      assert SameArgs(Exec(st, code), Exec(Exec(st, code), c));
    }
  }

  // ----- blocks -----

  ghost function StepAll(l: Layout, s: IrState, insts: seq<Inst>): IrState {
    if insts == [] then s else Step(l, StepAll(l, s, insts[..|insts| - 1]), insts[|insts| - 1])
  }

  ghost predicate SafeAll(l: Layout, s: IrState, insts: seq<Inst>) {
    forall k | 0 <= k < |insts| :: Safe(l, StepAll(l, s, insts[..k]), insts[k])
  }

  ghost predicate SimulatesAll(off: map<Id, int>, ty: map<Id, Type>, code: seq<Asm>, insts: seq<Inst>) {
    forall l, s, st | Fits(l, off, ty) && Agree(l, s, st) && SafeAll(l, s, insts) ::
      Agree(l, StepAll(l, s, insts), Exec(st, code))
  }

  lemma SimulatesNone(off: map<Id, int>, ty: map<Id, Type>)
    ensures SimulatesAll(off, ty, [], [])
  {
    hide Agree, LayoutOk, CalleesObey;
  }

  lemma SimulatesNext(off: map<Id, int>, ty: map<Id, Type>, code: seq<Asm>, insts: seq<Inst>, n: nat, c: seq<Asm>)
    requires n < |insts| && SimulatesAll(off, ty, code, insts[..n]) && Simulates(off, ty, c, insts[n])
    ensures SimulatesAll(off, ty, code + c, insts[..n + 1])
  {
    hide Agree, LayoutOk, CalleesObey, Exec, Safe, Step;
    var is', is0 := insts[..n + 1], insts[..n];
    assert is'[..n] == is0;
    forall l, s, st | Fits(l, off, ty) && Agree(l, s, st) && SafeAll(l, s, is')
      ensures Agree(l, StepAll(l, s, is'), Exec(st, code + c))
    {
      forall k | 0 <= k < n ensures Safe(l, StepAll(l, s, is0[..k]), is0[k]) {
        assert is0[..k] == is'[..k] && is0[k] == is'[k];
      }
      assert Safe(l, StepAll(l, s, is'[..n]), is'[n]);
      ExecAppend(st, code, c);
    }
  }

  /** The bodies of allocas are near enough for the immediate field of addi.d. */
  predicate AllocasFit(off: map<Id, int>, insts: seq<Inst>) {
    forall inst | inst in insts && inst.Alloca? && inst.id in off :: Imm12(off[inst.id] - inst.bodySize)
  }

  lemma AllocasNext(off: map<Id, int>, insts: seq<Inst>, n: nat, body: seq<Asm>, c: seq<Asm>)
    requires n < |insts| && (insts[n].Alloca? ==> insts[n].id in off)
    requires AllEncodable(body) <==> AllocasFit(off, insts[..n])
    requires AllEncodable(c) <==> (insts[n].Alloca? ==> Imm12(off[insts[n].id] - insts[n].bodySize))
    ensures AllEncodable(body + c) <==> AllocasFit(off, insts[..n + 1])
  {
    assert insts[..n + 1] == insts[..n] + [insts[n]];
    assert AllEncodable(body + c) <==> AllEncodable(body) && AllEncodable(c);
  }

  /** The pieces of a block's code. */
  datatype Emitted = Emitted(body: seq<Asm>, copies: seq<Asm>, load: seq<Asm>, leave: seq<Asm>)

  const PICK_BIT: Asm := BstrpickD(T(1), T(0), 0)

  function BranchText(t: Term, e: Emitted): seq<Asm> {
    match t
    case Br(target) => e.copies + [B(target)]
    case CondBr(_, ifTrue, ifFalse) => e.copies + e.load + [PICK_BIT, Bnez(T(1), ifTrue), B(ifFalse)]
    case Ret(_) => e.load + e.leave + [Jr(Ra), Jr(Ra)]
  }

  function TextOf(b: Block, t: Term, e: Emitted): seq<Asm> {
    [Label(b)] + e.body + BranchText(t, e)
  }

  ghost predicate BodyOk(f: Function, off: map<Id, int>, b: Block, body: seq<Asm>)
    requires HasBlocks(f) && b in f.blocks
  {
    && StraightLine(body) && SimulatesAll(off, f.ty, body, f.body[b])
    && (AllEncodable(body) <==> AllocasFit(off, f.body[b]))
  }

  ghost predicate EmittedOk(f: Function, off: map<Id, int>, frameSize: nat, b: Block, e: Emitted)
    requires HasBlocks(f) && b in f.blocks
  {
    && BodyOk(f, off, b, e.body) && Plain(e.copies) && Plain(e.load) && Plain(e.leave)
    && match f.term[b]
       case Br(target) => Copies(off, f.ty, e.copies, CopiesFor(f.phis, [target], b))
       case CondBr(v, ifTrue, ifFalse) =>
         Copies(off, f.ty, e.copies, CopiesFor(f.phis, [ifTrue, ifFalse], b)) && Loads(off, f.ty, e.load, v, T(0))
       case Ret(v) => (v.Some? ==> Loads(off, f.ty, e.load, v.value, A(0))) && (v.None? ==> KeepsFrame(e.load))
                      && Leaves(off, f.ty, frameSize, e.leave)
  }

  /** Nothing but the result register changes. */
  ghost predicate KeepsFrame(code: seq<Asm>) {
    forall st {:trigger Exec(st, code)} :: Exec(st, code) == st.(regs := st.regs[A(0) := Get(Exec(st, code).regs, A(0))])
  }

  lemma KeepsFrameClear()
    ensures KeepsFrame([Alu(AddD, A(0), Zero, Zero)])
  {
    hide Exec;
    var i := Alu(AddD, A(0), Zero, Zero);
    forall st ensures Exec(st, [i]) == st.(regs := st.regs[A(0) := Get(Exec(st, [i]).regs, A(0))]) {
      ExecOne(st, i);
    }
  }

  /** The texts of the blocks, in order. */
  function Texts(f: Function, blocks: seq<Block>, em: map<Block, Emitted>): seq<Asm> {
    if blocks == [] then []
    else
      var b := blocks[|blocks| - 1];
      Texts(f, blocks[..|blocks| - 1], em) + if b in f.term && b in em then TextOf(b, f.term[b], em[b]) else []
  }

  ghost predicate BlocksEmitted(f: Function, off: map<Id, int>, frameSize: nat, blocks: seq<Block>, em: map<Block, Emitted>)
    requires HasBlocks(f)
  {
    forall b | b in blocks :: b in f.blocks && b in em && EmittedOk(f, off, frameSize, b, em[b])
  }

  /** A whole function as it is emitted. */
  ghost predicate FunctionText(f: Function, off: map<Id, int>, frameSize: nat, name: int, prog: seq<Asm>,
                               enter: seq<Asm>, em: map<Block, Emitted>, tail: seq<Asm>)
    requires HasBlocks(f)
  {
    && prog == [Label(name)] + enter + Texts(f, f.blocks, em) + tail
    && Plain(enter) && EntersWith(off, f.ty, frameSize, f.args, enter)
    && BlocksEmitted(f, off, frameSize, f.blocks, em)
  }

  lemma TextsStart(f: Function, em: map<Block, Emitted>)
    ensures Texts(f, f.blocks[..0], em) == []
  {
  }

  lemma {:induction false} TextsOther(f: Function, blocks: seq<Block>, em: map<Block, Emitted>, b: Block, e: Emitted)
    requires b !in blocks
    ensures Texts(f, blocks, em[b := e]) == Texts(f, blocks, em)
    decreases |blocks|
  {
    if blocks != [] {
      TextsOther(f, blocks[..|blocks| - 1], em, b, e);
    }
  }

  lemma TextsNext(f: Function, off: map<Id, int>, frameSize: nat, n: nat, em: map<Block, Emitted>, e: Emitted)
    requires HasBlocks(f) && n < |f.blocks| && NoDuplicates(f.blocks)
    requires BlocksEmitted(f, off, frameSize, f.blocks[..n], em) && EmittedOk(f, off, frameSize, f.blocks[n], e)
    ensures BlocksEmitted(f, off, frameSize, f.blocks[..n + 1], em[f.blocks[n] := e])
    ensures Texts(f, f.blocks[..n + 1], em[f.blocks[n] := e])
            == Texts(f, f.blocks[..n], em) + TextOf(f.blocks[n], f.term[f.blocks[n]], e)
  {
    hide EmittedOk, TextOf;
    var b := f.blocks[n];
    assert f.blocks[..n + 1][..n] == f.blocks[..n];
    assert b !in f.blocks[..n];
    TextsOther(f, f.blocks[..n], em, b, e);
  }

  // ----- what the generator asks of a function -----

  ghost function SlotIds(items: seq<Item>): set<Id> {
    set item | item in items && item.Slot? :: item.id
  }

  /** Well-formed input: distinct blocks, operands that have slots, no more than 32-bit constants. */
  ghost predicate FunctionReady(f: Function, ids: set<Id>) {
    && HasBlocks(f) && NoDuplicates(f.blocks) && PhisReady(ids, f)
    && (forall id | id in f.args :: id in ids && id in f.ty)
    && (forall b, i | b in f.blocks && 0 <= i < |f.body[b]| :: Ready(ids, f.ty, f.body[b][i]))
    && (forall b | b in f.blocks ::
          && (f.term[b].CondBr? ==> Placed(ids, f.ty, f.term[b].cond))
          && (f.term[b].Ret? && f.term[b].val.Some? ==> Placed(ids, f.ty, f.term[b].val.value)))
  }

  lemma AllocatedIds(f: Function, off: map<Id, int>, frameSize: nat)
    requires Allocated(f, off, frameSize) && PROLOGUE_OFFSET_BASE + Total(Items(f)) + PROLOGUE_ALIGN <= TWO_31
    ensures off.Keys == SlotIds(Items(f)) && IntOffsets(off) && 16 <= frameSize < TWO_31
  {
    hide Items, Total;
    var items := Items(f);
    forall id ensures id in off <==> id in SlotIds(items) {
      if id in off {
        var k := SlotIndex(f, off, frameSize, id);
        assert items[k] in items;
      }
      if id in SlotIds(items) {
        var item :| item in items && item.Slot? && item.id == id;
        var k :| 0 <= k < |items| && items[k] == item;
        ItemsApart(f, off, frameSize, k, k);
      }
    }
    forall id | id in off ensures -TWO_31 <= off[id] < 0 {
      var k := SlotIndex(f, off, frameSize, id);
      ItemsApart(f, off, frameSize, k, k);
    }
  }
}
