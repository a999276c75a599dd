/**
 One lemma per emission primitive: what the machine does when it arrives at the
 words the primitive wrote, in any finished program that contains them.
 */
module Steps {
  import opened Words
  import opened Machine
  import opened Assembly
  import opened Source
  import opened Lowering
  import opened Growth

  // The words, labels and constants of b are part of the finished context F.
  ghost predicate In(b: Ctx, F: Ctx) {
    && !b.failed
    && b.items <= F.items && b.consts <= F.consts && b.top <= F.top
    && |b.labels| <= |F.labels|
    && (forall l :: 0 <= l < |b.labels| && b.labels[l].Some? ==> F.labels[l] == b.labels[l])
  }

  // m runs the code assembled from F, whose labels are all bound and fit the
  // 16-bit window of conditional branches.
  ghost predicate Runs16(m: Machine, F: Ctx) {
    && m.code.instrs == ResolveAll(F.items, F.labels)
    && m.code.consts == F.consts
    && |F.items| < 0x1_0000
    && F.top <= MAX_REGS
    && |F.consts| <= MAX_CONSTANTS
    && (forall l :: 0 <= l < |F.labels| ==> F.labels[l].Some? && F.labels[l].value <= |F.items|)
  }

  lemma ExtIn(b: Ctx, f: Ctx, open: set<nat>, F: Ctx)
    requires Ext(b, f, open) && In(f, F)
    ensures In(b, F)
  {
  }

  lemma PlainIn(b: Ctx, f: Ctx, F: Ctx)
    requires Plain(b, f) && In(f, F)
    ensures In(b, F)
  {
  }

  // The word at position i of b, in the finished code.
  lemma WordAt(m: Machine, F: Ctx, b: Ctx, i: nat)
    requires Runs16(m, F) && In(b, F) && i < |b.items|
    ensures i < |m.code.instrs| && m.code.instrs[i] == Resolve(b.items[i], F.labels)
  {
    assert F.items[i] == b.items[i];
  }

  // ---- decoding what was encoded ----------------------------------------

  // The word of `EncodeRegs` that carries the opcode.
  function LastWord(op: Opcode, x: nat, y: nat, z: nat): Instr {
    Instr(op, Low8(x), Low8(y), Low8(z))
  }

  ghost predicate FitsMask(x: nat, y: nat, z: nat, mask: Byte) {
    && x < 0x1_0000 && y < 0x1_0000 && z < 0x1_0000
    && (x <= 255 || MaskHas(mask, 0)) && (y <= 255 || MaskHas(mask, 1)) && (z <= 255 || MaskHas(mask, 2))
  }

  // The round trip of wide register operands: decoding the words `EncodeRegs`
  // writes returns the operands, whether or not a prefix was needed.
  lemma DecodeEncoded(code: seq<Instr>, pc: nat, op: Opcode, x: nat, y: nat, z: nat, mask: Byte)
    requires op != WIDE && FitsMask(x, y, z, mask)
    requires pc + |EncodeRegs(op, x, y, z, mask)| <= |code|
    requires forall i :: 0 <= i < |EncodeRegs(op, x, y, z, mask)| ==>
               code[pc + i] == EncodeRegs(op, x, y, z, mask)[i]
    ensures Decode(code, pc) ==
            Some(Logical(op, x, y, z, |EncodeRegs(op, x, y, z, mask)|, LastWord(op, x, y, z), []))
  {
    var ws := EncodeRegs(op, x, y, z, mask);
    if |ws| == 3 {
      assert code[pc + 0] == ws[0] && code[pc + 1] == ws[1] && code[pc + 2] == ws[2];
      MergeBack(mask, 0, x);
      MergeBack(mask, 1, y);
      MergeBack(mask, 2, z);
    } else {
      assert code[pc + 0] == ws[0];
    }
  }

  // Register instructions of any kind, prefixed or not.
  datatype RegOp = RegOp(op: Opcode, x: nat, y: nat, z: nat, mask: Byte) {
    ghost predicate Fits() { op != WIDE && FitsMask(x, y, z, mask) }
  }

  function EncodeAll(ops: seq<RegOp>): seq<Instr> {
    if ops == [] then [] else EncodeRegs(ops[0].op, ops[0].x, ops[0].y, ops[0].z, ops[0].mask) + EncodeAll(ops[1..])
  }

  // Decoding instruction after instruction up to the end of the code.
  function DecodeAll(code: seq<Instr>, pc: nat): Option<seq<(Opcode, nat, nat, nat)>>
    requires pc <= |code|
    decreases |code| - pc
  {
    if pc == |code| then Some([])
    else
      var d := Decode(code, pc);
      if d.None? then None else
      var rest := DecodeAll(code, pc + d.value.width);
      if rest.None? then None else Some([(d.value.op, d.value.a, d.value.b, d.value.c)] + rest.value)
  }

  function OperandsOf(ops: seq<RegOp>): (r: seq<(Opcode, nat, nat, nat)>)
    ensures |r| == |ops|
  {
    seq(|ops|, i requires 0 <= i < |ops| => (ops[i].op, ops[i].x, ops[i].y, ops[i].z))
  }

  // One instruction off the front.
  lemma FirstDecoded(before: seq<Instr>, o: RegOp, rest: seq<Instr>)
    requires o.Fits()
    ensures var ws := EncodeRegs(o.op, o.x, o.y, o.z, o.mask);
            var more := DecodeAll(before + ws + rest, |before + ws|);
            DecodeAll(before + ws + rest, |before|) ==
            if more.None? then None else Some([(o.op, o.x, o.y, o.z)] + more.value)
  {
    hide EncodeRegs; hide Decode; hide FitsMask;
    var ws := EncodeRegs(o.op, o.x, o.y, o.z, o.mask);
    EncodedNonempty(o.op, o.x, o.y, o.z, o.mask);
    DecodeEncoded(before + ws + rest, |before|, o.op, o.x, o.y, o.z, o.mask);
  }

  // The round trip for whole sequences, plain and prefixed instructions mixed.
  lemma {:induction false} DecodeAllEncoded(before: seq<Instr>, ops: seq<RegOp>)
    requires forall i :: 0 <= i < |ops| ==> ops[i].Fits()
    ensures DecodeAll(before + EncodeAll(ops), |before|) == Some(OperandsOf(ops))
    decreases |ops|
  {
    hide EncodeRegs; hide Decode; hide FitsMask;
    if ops == [] {
      assert OperandsOf(ops) == [];
    } else {
      hide DecodeAll;
      var o := ops[0];
      var ws := EncodeRegs(o.op, o.x, o.y, o.z, o.mask);
      assert before + EncodeAll(ops) == before + ws + EncodeAll(ops[1..]);
      FirstDecoded(before, o, EncodeAll(ops[1..]));
      DecodeAllEncoded(before + ws, ops[1..]);
      assert OperandsOf(ops) == [(o.op, o.x, o.y, o.z)] + OperandsOf(ops[1..]);
    }
  }

  lemma EncodedNonempty(op: Opcode, x: nat, y: nat, z: nat, mask: Byte)
    ensures |EncodeRegs(op, x, y, z, mask)| >= 1
  {
  }

  lemma MergeBack(mask: Byte, slot: nat, x: nat)
    requires slot < 3 && x < 0x1_0000 && (x <= 255 || MaskHas(mask, slot))
    ensures Merge(mask, slot, High8(x), Low8(x)) == x
  {
  }

  lemma WordsAt(m: Machine, F: Ctx, b: Ctx, ws: seq<Instr>)
    requires Runs16(m, F) && In(EmitWords(b, ws), F)
    ensures |b.items| + |ws| <= |m.code.instrs|
    ensures forall i :: 0 <= i < |ws| ==> m.code.instrs[|b.items| + i] == ws[i]
  {
    var f := EmitWords(b, ws);
    assert |f.items| == |b.items| + |ws|;
    forall i | 0 <= i < |ws|
      ensures |b.items| + i < |m.code.instrs| && m.code.instrs[|b.items| + i] == ws[i]
    {
      WordAt(m, F, f, |b.items| + i);
      assert f.items[|b.items| + i] == Raw(ws[i]);
    }
  }

  function LogicalOf(op: Opcode, x: nat, y: nat, z: nat, width: nat): Logical {
    Logical(op, x, y, z, width, LastWord(op, x, y, z), [])
  }

  // Arriving at an encoded register instruction executes it.
  lemma AtRegs(m: Machine, F: Ctx, b: Ctx, op: Opcode, x: nat, y: nat, z: nat, mask: Byte, s: State)
    requires Runs16(m, F) && In(EmitRegs(b, op, x, y, z, mask), F)
    requires op != WIDE && FitsMask(x, y, z, mask) && s.pc == |b.items|
    ensures EffectAt(m, s) ==
            Exec(m.code, m.host, LogicalOf(op, x, y, z, |EncodeRegs(op, x, y, z, mask)|), s.regs, s.tr)
    ensures s.pc + WidthAt(m, s.pc) == |EmitRegs(b, op, x, y, z, mask).items|
    ensures |b.items| < |EmitRegs(b, op, x, y, z, mask).items|
  {
    hide Exec; hide Decode; hide EncodeRegs; hide Resolve;
    var ws := EncodeRegs(op, x, y, z, mask);
    EncodedNonempty(op, x, y, z, mask);
    WordsAt(m, F, b, ws);
    DecodeEncoded(m.code.instrs, s.pc, op, x, y, z, mask);
  }

  lemma StepNext(m: Machine, s: State, regs: Regs, tr: Trace)
    requires EffectAt(m, s) == Next(regs, tr)
    ensures Runs(m, s, 1, State(s.pc + WidthAt(m, s.pc), regs, tr))
  {
    hide EffectAt; hide WidthAt;
    RunsOne(m, s);
  }

  lemma StepGoto(m: Machine, s: State, pc: nat)
    requires EffectAt(m, s) == Goto(pc)
    ensures Runs(m, s, 1, State(pc, s.regs, s.tr))
  {
    hide EffectAt; hide WidthAt;
    RunsOne(m, s);
  }

  lemma DoMove(m: Machine, F: Ctx, b: Ctx, dst: nat, src: nat, s: State)
    requires Runs16(m, F) && In(MoveReg(b, dst, src), F)
    requires dst < 0x1_0000 && src < 0x1_0000 && s.pc == |b.items|
    ensures Runs(m, s, 1, State(|MoveReg(b, dst, src).items|, s.regs[dst := Get(s.regs, src)], s.tr))
  {
    hide EffectAt; hide WidthAt; hide EncodeRegs; hide Runs;
    AtRegs(m, F, b, MOVE, dst, src, 0, 3, s);
    StepNext(m, s, s.regs[dst := Get(s.regs, src)], s.tr);
  }

  lemma DoConst(m: Machine, F: Ctx, b: Ctx, dst: nat, v: Val, s: State)
    requires Runs16(m, F) && In(LoadConst(b, dst, v), F)
    requires dst < 0x1_0000 && s.pc == |b.items|
    ensures Runs(m, s, 1, State(|LoadConst(b, dst, v).items|, s.regs[dst := v], s.tr))
  {
    var (b1, k) := AddConst(b, v);
    var f := EmitRegs(b1, LOAD_CONST, dst, k / 256, k % 256, 1);
    RegsShape(b1, LOAD_CONST, dst, k / 256, k % 256, 1);
    assert var (b1, k) := AddConst(b, v);
           b1.items == b.items && k < |m.code.consts| && m.code.consts[k] == v && k < MAX_CONSTANTS by {
      var (b1, k) := AddConst(b, v);
      assert k < |b1.consts| && b1.consts[k] == v;
    }
    AtRegs(m, F, b1, LOAD_CONST, dst, k / 256, k % 256, 1, s);
    ConstWord(dst, k / 256, k % 256);
    StepNext(m, s, s.regs[dst := v], s.tr);
  }

  lemma ConstWord(x: nat, y: nat, z: nat)
    requires y <= 255 && z <= 255
    ensures LastWord(LOAD_CONST, x, y, z).Imm16() == y * 256 + z
  {
    JoinSum(y, z);
  }

  lemma DoInt(m: Machine, F: Ctx, b: Ctx, dst: nat, v: int, s: State)
    requires Runs16(m, F) && In(LoadInt(b, dst, v), F)
    requires dst < 0x1_0000 && FitsI64(v) && s.pc == |b.items|
    ensures Runs(m, s, 1, State(|LoadInt(b, dst, v).items|, s.regs[dst := Num(Int(v))], s.tr))
  {
    hide EffectAt; hide WidthAt; hide Runs; hide Join;
    if -128 <= v <= 127 && dst <= 255 {
      var ws := [Instr(LOAD_INT, dst, 0, Low8(v))];
      WordsAt(m, F, b, ws);
      assert m.code.instrs[s.pc + 0] == ws[0];
      DecodedNarrow(m, s, ws[0]);
      assert Sign8(Low8(v)) == v;
    } else {
      WordsAt(m, F, b, EncodeIntW(dst, v));
      DecodedIntW(m, s, dst, v);
    }
    StepNext(m, s, s.regs[dst := Num(Int(v))], s.tr);
  }

  lemma DecodedIntW(m: Machine, s: State, dst: nat, v: int)
    requires dst < 0x1_0000 && FitsI64(v)
    requires s.pc + 4 <= |m.code.instrs|
    requires forall i :: 0 <= i < 4 ==> m.code.instrs[s.pc + i] == EncodeIntW(dst, v)[i]
    ensures EffectAt(m, s) == Next(s.regs[dst := Num(Int(v))], s.tr)
    ensures WidthAt(m, s.pc) == 4
  {
    hide Join; hide Instr.Raw; hide OfRaw; hide OfHiLo;
    var ws := EncodeIntW(dst, v);
    assert m.code.instrs[s.pc + 0] == ws[0];
    var l := Decode(m.code.instrs, s.pc).value;
    assert l.payload[0] == m.code.instrs[s.pc + 1] == ws[1];
    assert l.payload[1] == m.code.instrs[s.pc + 2] == ws[2];
    assert l.payload[2] == m.code.instrs[s.pc + 3] == ws[3];
    assert var bits := v % 0x1_0000_0000_0000_0000; Signed64(bits % 0x1_0000_0000, bits / 0x1_0000_0000) == v;
  }

  lemma DecodedNarrow(m: Machine, s: State, w: Instr)
    requires s.pc < |m.code.instrs| && m.code.instrs[s.pc] == w && Assigned(w.op) && w.op != WIDE
    ensures EffectAt(m, s) == Exec(m.code, m.host, Logical(w.op, w.a, w.b, w.c, 1, w, []), s.regs, s.tr)
    ensures WidthAt(m, s.pc) == 1
  {
    hide Exec;
  }

  lemma DoUndefined(m: Machine, F: Ctx, b: Ctx, lay: Layout, dst: nat, s: State)
    requires Runs16(m, F) && In(LoadUndefined(b, lay, dst), F)
    requires dst < 0x1_0000 && lay.localsEnd < 0x1_0000 && s.pc == |b.items|
    requires Get(s.regs, lay.localsEnd) == Undefined
    ensures Runs(m, s, 1, State(|LoadUndefined(b, lay, dst).items|, s.regs[dst := Undefined], s.tr))
  {
    hide Runs; hide MoveReg;
    DoMove(m, F, b, dst, lay.localsEnd, s);
  }

  // A boolean takes a scratch temporary and two instructions.
  lemma DoBool(m: Machine, F: Ctx, b: Ctx, dst: nat, v: bool, s: State)
    requires Runs16(m, F) && In(LoadBool(b, dst, v), F)
    requires dst < 0x1_0000 && s.pc == |b.items|
    ensures Runs(m, s, 2, State(|LoadBool(b, dst, v).items|, s.regs[b.top := Num(Int(0))][dst := Bool(v)], s.tr))
  {
    hide EffectAt; hide WidthAt; hide EncodeRegs; hide LoadInt; hide Runs; hide NewTemps;
    var (b1, t) := NewTemp(b);
    PlainTemps(b, 1);
    var b2 := LoadInt(b1, t, 0);
    var op := if v then EQ else NE;
    var f := EmitReg3(b2, op, dst, t, t);
    RegsShape(b2, op, dst, t, t, 7);
    PlainIn(b2, f, F);
    IntShape(b1, t, 0);
    PlainIn(b1, b2, F);
    DoInt(m, F, b1, t, 0, s);
    var s1 := State(|b2.items|, s.regs[t := Num(Int(0))], s.tr);
    AtRegs(m, F, b2, op, dst, t, t, 7, s1);
    assert PureBinary(op, Num(Int(0)), Num(Int(0))) == Some(Bool(v));
    StepNext(m, s1, s1.regs[dst := Bool(v)], s.tr);
    RunsTrans(m, s, 1, s1, 1, State(|f.items|, s1.regs[dst := Bool(v)], s.tr));
  }

  lemma IntShape(b: Ctx, dst: nat, v: int)
    ensures var f := LoadInt(b, dst, v);
            Plain(b, f) && f.top == b.top && f.failed == b.failed && f.consts == b.consts && f.labels == b.labels
  {
    hide EncodeIntW;
  }

  // ---- branches ---------------------------------------------------------

  // Arriving at a branch: the register it tests and the place it names.
  lemma AtJump(m: Machine, F: Ctx, b: Ctx, op: Opcode, reg: nat, l: nat, s: State)
    requires Runs16(m, F) && In(EmitJump(b, op, reg, l), F)
    requires IsBranch(op) && reg < 0x1_0000 && l < |F.labels| && s.pc == |b.items|
    ensures var d := Decode(m.code.instrs, s.pc);
            && d.Some? && d.value.op == op
            && BranchTarget(d.value.word) == F.labels[l].value && d.value.word.op == op
            && (op != JUMP ==> d.value.a == reg)
            && s.pc + d.value.width == |EmitJump(b, op, reg, l).items|
    ensures |b.items| < |EmitJump(b, op, reg, l).items|
  {
    hide Patch; hide BranchTarget;
    var f := EmitJump(b, op, reg, l);
    var last := |f.items| - 1;
    assert f.items[last] == Branch(op, Low8(reg), l);
    WordAt(m, F, f, last);
    PatchedBranch(op, Low8(reg), F.labels[l].value);
    if reg > 255 {
      var ws := Prefix(1, reg, 0, 0);
      assert f.items[|b.items|] == Raw(ws[0]) && f.items[|b.items| + 1] == Raw(ws[1]);
      WordAt(m, F, f, |b.items|);
      WordAt(m, F, f, |b.items| + 1);
      MergeBack(1, 0, reg);
    }
  }

  lemma DoGoto(m: Machine, F: Ctx, b: Ctx, l: nat, s: State)
    requires Runs16(m, F) && In(EmitGoto(b, l), F)
    requires l < |F.labels| && s.pc == |b.items|
    ensures Runs(m, s, 1, State(F.labels[l].value, s.regs, s.tr))
    ensures |b.items| < |EmitGoto(b, l).items|
  {
    hide Decode; hide Runs;
    AtJump(m, F, b, JUMP, 0, l, s);
    StepGoto(m, s, F.labels[l].value);
  }

  // The branch is taken exactly when its condition says so.
  predicate Taken(op: Opcode, v: Val) {
    if op == JUMP_IF_FALSE then !Truthy(v)
    else if op == JUMP_IF_TRUE then Truthy(v)
    else Nullish(v)
  }

  lemma DoBranch(m: Machine, F: Ctx, b: Ctx, op: Opcode, reg: nat, l: nat, s: State)
    requires Runs16(m, F) && In(EmitJump(b, op, reg, l), F)
    requires IsCondJump(op) && reg < 0x1_0000 && l < |F.labels| && s.pc == |b.items|
    ensures var pc := if Taken(op, Get(s.regs, reg)) then F.labels[l].value else |EmitJump(b, op, reg, l).items|;
            Runs(m, s, 1, State(pc, s.regs, s.tr))
    ensures |b.items| < |EmitJump(b, op, reg, l).items|
  {
    hide Decode; hide Runs;
    AtJump(m, F, b, op, reg, l, s);
    if Taken(op, Get(s.regs, reg)) {
      StepGoto(m, s, F.labels[l].value);
    } else {
      StepNext(m, s, s.regs, s.tr);
    }
  }

  // ---- requests to the host ---------------------------------------------

  // What a register instruction that leaves the frame asks for.
  lemma AtHost(m: Machine, F: Ctx, b: Ctx, op: Opcode, x: nat, y: nat, z: nat, s: State, req: Request,
               write: Option<nat>)
    requires Runs16(m, F) && In(EmitReg3(b, op, x, y, z), F)
    requires x < 0x1_0000 && y < 0x1_0000 && z < 0x1_0000 && s.pc == |b.items|
    requires
      || (op == GET_PROPERTY && req == Request(op, [], [Get(s.regs, y), Get(s.regs, z)]) && write == Some(x))
      || (BinaryOp(op) && !IsBinary(op) && req == Request(op, [], [Get(s.regs, y), Get(s.regs, z)]) && write == Some(x))
      || ((op == GET_ITERATOR || op == ITERATOR_NEXT) && req == Request(op, [], [Get(s.regs, y)]) && write == Some(x))
      || (op == ITERATOR_CLOSE && req == Request(op, [y], [Get(s.regs, x)]) && write == None)
    ensures EffectAt(m, s) == AskHost(m.host, req, write, s.regs, s.tr)
    ensures s.pc + WidthAt(m, s.pc) == |EmitReg3(b, op, x, y, z).items|
    ensures |b.items| < |EmitReg3(b, op, x, y, z).items|
  {
    hide EffectAt; hide WidthAt; hide EncodeRegs; hide Exec; hide NarrowShape;
    AtRegs(m, F, b, op, x, y, z, 7, s);
    var l := LogicalOf(op, x, y, z, |EncodeRegs(op, x, y, z, 7)|);
    ExecHost(m, l, s);
    ShapeHost(l);
    assert Reads(s.regs, NarrowShape(l).uses) == req.args;
  }

  predicate HostOp(op: Opcode) {
    || op == GET_PROPERTY || op == GET_ITERATOR || op == ITERATOR_NEXT || op == ITERATOR_CLOSE
    || (BinaryOp(op) && !IsBinary(op))
    || (UnaryOp(op) && op != NOT)
    || op == CALL
  }

  lemma ExecHost(m: Machine, l: Logical, s: State)
    requires HostOp(l.op)
    ensures var sh := NarrowShape(l);
            Exec(m.code, m.host, l, s.regs, s.tr) ==
            AskHost(m.host, Request(sh.op, sh.imms, Reads(s.regs, sh.uses)), sh.write, s.regs, s.tr)
  {
    hide NarrowShape; hide AskHost;
  }

  lemma ShapeHost(l: Logical)
    requires HostOp(l.op)
    ensures NarrowShape(l) ==
            if l.op == ITERATOR_CLOSE then Shape(l.op, [l.b], [l.a], None)
            else if l.op == CALL then Shape(l.op, [l.c], Window(l.b, CALL_HEADER_REGS + l.c), Some(l.a))
            else if l.op == GET_ITERATOR || l.op == ITERATOR_NEXT
              || UnaryOp(l.op) then Shape(l.op, [], [l.b], Some(l.a))
            else Shape(l.op, [], [l.b, l.c], Some(l.a))
  {
    hide RolesOf;
    RolesHost(l.op);
  }

  lemma RolesHost(op: Opcode)
    requires HostOp(op)
    ensures op != ARRAY_APPEND && op != MERGE_OBJECT
    ensures RolesOf(op) ==
            if op == ITERATOR_CLOSE then Roles(Src, Flag, Unused)
            else if op == CALL then Roles(Dst, Callee, Count)
            else if op == GET_ITERATOR || op == ITERATOR_NEXT || UnaryOp(op) then Roles(Dst, Src, Unused)
            else Roles(Dst, Src, Src)
  {
  }
}
