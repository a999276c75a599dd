/**
 The operand validator (crates/v12-bytecode/src/validate.rs): one linear walk that
 checks every instruction against the operand table, and the theorem that acceptance
 is safety of every run.
 */
module Validator {
  import opened Words
  import opened Machine
  import opened Assembly
  import opened PeepholeSpec
  import opened PeepholeLayout
  import opened PeepholeSafe
  import opened PeepholeThread

  datatype Error =
    | TruncatedWide(word: nat)
    | UnknownDiscriminant(disc: nat)
    | UnassignedOpcode(pc: nat)
    | RegisterOutOfRange(pc: nat)
    | FlagNotBoolean(pc: nat)
    | ConstIdOutOfRange(pc: nat)
    | BranchTargetOutOfRange(pc: nat)
    | EnvSlotOutOfRange(pc: nat)

  // ---- what is demanded of one instruction ------------------------------

  // Operand i of a narrow instruction, prefix merged.
  function Operand(l: Logical, i: nat): nat
    requires i < 3
  {
    if i == 0 then l.a else if i == 1 then l.b else l.c
  }

  function RoleAt(op: Opcode, i: nat): Role
    requires i < 3
  {
    var r := RolesOf(op);
    if i == 0 then r.a else if i == 1 then r.b else r.c
  }

  function ByteAt(w: Instr, i: nat): Byte
    requires i < 3
  {
    if i == 0 then w.a else if i == 1 then w.b else w.c
  }

  predicate RegistersOk(l: Logical, maxRegs: nat) {
    forall i: nat :: i < 3 && IsRegister(RoleAt(l.op, i)) ==> Operand(l, i) < maxRegs
  }

  // Operands that reach past their base: an element window and an accessor pair.
  predicate WindowsOk(l: Logical, maxRegs: nat) {
    && (l.op == NEW_ARRAY ==> l.b + l.c < maxRegs)
    && (l.op == DEFINE_ACCESSOR || l.op == DEFINE_ACCESSOR_ENUMERABLE ==> l.c + 1 < maxRegs)
  }

  predicate FlagsOk(l: Logical) {
    forall i: nat :: i < 3 && RoleAt(l.op, i).Flag? ==> ByteAt(l.word, i) <= 1
  }

  // The registers of a wide operation that are checked.
  function WideRegisters(disc: Byte, p: seq<Instr>): seq<nat>
    requires disc <= MAX_DISC && disc != REG_EXT && |p| == WideWidth(disc) - 1
  {
    var p2 := if |p| > 1 then p[1] else p[0];
    var (h0, h1, h2, h3) := (p[0].Hi(), p[0].Lo(), p2.Hi(), p2.Lo());
    if disc == LOAD_INT_W then [p[2].Lo()]
    else if disc == 0 || disc == 2 || disc == 3 || disc == 8 || disc == 11 then [h0]
    else if disc == CALL_W || disc == 10 || disc == 6 || disc == 12 then [h0, h1]
    else if disc == 9 then []
    else if disc == 5 || disc == 13 || disc == 14 then [h0, h1, h2]
    else [h0, h1, h2, h3]
  }

  function WideConst(p: seq<Instr>): nat
    requires |p| == 2
  {
    p[0].Lo() * 0x1_0000 + p[1].Raw()
  }

  // ---- environments, in pc order ----------------------------------------

  // Slot counts of the environments allocated so far, innermost last.
  type EnvStack = seq<nat>

  function EnvsAfter(l: Logical, envs: EnvStack): EnvStack
    requires Decoded(l)
  {
    if l.op == NEW_ENVIRONMENT then envs + [l.b]
    else if l.op == POP_ENVIRONMENT then (if envs == [] then [] else envs[..|envs| - 1])
    else if l.op == WIDE && l.word.c == 9 then envs + [l.payload[0].Lo()]
    else envs
  }

  // Depth and slot of an environment access.
  function Access(l: Logical): Option<(nat, nat)>
    requires Decoded(l)
  {
    if l.op == GET_ENV_SLOT then Some((l.b, l.c))
    else if l.op == SET_ENV_SLOT then Some((l.a, l.b))
    else if l.op == WIDE && (l.word.c == 2 || l.word.c == 3) then Some((l.payload[0].Lo(), l.payload[1].Lo()))
    else None
  }

  // A depth that names an inherited environment is not checked.
  predicate AccessOk(a: Option<(nat, nat)>, envs: EnvStack) {
    a.Some? && a.value.0 < |envs| ==> a.value.1 < envs[|envs| - 1 - a.value.0]
  }

  // ---- what is demanded of the code --------------------------------------

  predicate LogicalOk(l: Logical, envs: EnvStack, end: nat, pool: nat, maxRegs: nat)
    requires Decoded(l)
  {
    && AccessOk(Access(l), EnvsAfter(l, envs))
    && if l.op == WIDE then
         && (forall r :: r in WideRegisters(l.word.c, l.payload) ==> r < maxRegs)
         && (l.word.c == LOAD_CONST_W ==> WideConst(l.payload) < pool)
       else
         && RegistersOk(l, maxRegs) && WindowsOk(l, maxRegs) && FlagsOk(l)
         && (l.op == LOAD_CONST ==> l.word.Imm16() < pool)
         && (IsBranch(l.op) ==> BranchOf(l) <= end)
  }

  predicate InstrOk(ws: Text, p: nat, envs: EnvStack, pool: nat, maxRegs: nat) {
    var d := Decode(ws, p);
    d.Some? && DecodedFine(ws, p) && LogicalOk(d.value, envs, |ws|, pool, maxRegs)
  }

  // Always true of a decoded instruction (`DecodedOk`).
  predicate DecodedFine(ws: Text, p: nat)
    requires Decode(ws, p).Some?
  {
    Decoded(Decode(ws, p).value)
  }

  // The environments on arrival at p, walking from `from`.
  function EnvsAt(ws: Text, from: nat, envs: EnvStack, p: nat): EnvStack
    requires from <= |ws|
    decreases |ws| - from
  {
    if from >= p || from == |ws| then envs
    else
      var d := Decode(ws, from);
      EnvsAt(ws, from + Span(ws, from, true), if d.Some? && DecodedFine(ws, from) then EnvsAfter(d.value, envs)
             else envs, p)
  }

  // Every instruction passes.
  predicate Accepts(ws: Text, pool: nat, maxRegs: nat) {
    forall p: nat :: p < |ws| && IsHead(ws, true, p) ==> InstrOk(ws, p, EnvsAt(ws, 0, [], p), pool, maxRegs)
  }

  // ---- the walk -----------------------------------------------------------

  method CheckRegisters(l: Logical, at: nat, maxRegs: nat) returns (err: Option<Error>)
    ensures err.None? <==> RegistersOk(l, maxRegs)
  {
    hide RoleAt; hide Operand;
    for i := 0 to 3
      invariant forall j: nat :: j < i && IsRegister(RoleAt(l.op, j)) ==> Operand(l, j) < maxRegs
    {
      if IsRegister(RoleAt(l.op, i)) && Operand(l, i) >= maxRegs { return Some(RegisterOutOfRange(at)); }
    }
    return None;
  }

  method CheckFlags(l: Logical, at: nat) returns (err: Option<Error>)
    ensures err.None? <==> FlagsOk(l)
  {
    hide RoleAt; hide ByteAt;
    for i := 0 to 3
      invariant forall j: nat :: j < i && RoleAt(l.op, j).Flag? ==> ByteAt(l.word, j) <= 1
    {
      if RoleAt(l.op, i).Flag? && ByteAt(l.word, i) > 1 { return Some(FlagNotBoolean(at)); }
    }
    return None;
  }

  method CheckNarrow(l: Logical, at: nat, end: nat, pool: nat, maxRegs: nat, envs: EnvStack)
    returns (err: Option<Error>, envs': EnvStack)
    requires l.op != WIDE
    ensures err.None? <==> LogicalOk(l, envs, end, pool, maxRegs)
    ensures envs' == EnvsAfter(l, envs)
  {
    hide RegistersOk; hide FlagsOk; hide Instr.Imm24; hide Instr.Imm16;
    envs' := EnvsAfter(l, envs);
    err := CheckRegisters(l, at, maxRegs);
    if err.Some? { return; }
    if !WindowsOk(l, maxRegs) { err := Some(RegisterOutOfRange(at)); return; }
    err := CheckFlags(l, at);
    if err.Some? { return; }
    if l.op == LOAD_CONST && l.word.Imm16() >= pool { err := Some(ConstIdOutOfRange(at)); return; }
    if IsBranch(l.op) && BranchOf(l) > end { err := Some(BranchTargetOutOfRange(at)); return; }
    if !AccessOk(Access(l), envs') { err := Some(EnvSlotOutOfRange(at)); return; }
  }

  method CheckWide(l: Logical, at: nat, end: nat, pool: nat, maxRegs: nat, envs: EnvStack)
    returns (err: Option<Error>, envs': EnvStack)
    requires l.op == WIDE && Decoded(l)
    ensures err.None? <==> LogicalOk(l, envs, end, pool, maxRegs)
    ensures envs' == EnvsAfter(l, envs)
  {
    hide WideRegisters; hide WideConst;
    envs' := EnvsAfter(l, envs);
    var regs := WideRegisters(l.word.c, l.payload);
    for i := 0 to |regs|
      invariant forall r :: r in regs[..i] ==> r < maxRegs
    {
      assert regs[i] in regs;
      if regs[i] >= maxRegs { err := Some(RegisterOutOfRange(at)); return; }
      assert regs[..i + 1] == regs[..i] + [regs[i]];
    }
    assert regs[..|regs|] == regs;
    if l.word.c == LOAD_CONST_W && WideConst(l.payload) >= pool { err := Some(ConstIdOutOfRange(at)); return; }
    if !AccessOk(Access(l), envs') { err := Some(EnvSlotOutOfRange(at)); return; }
    err := None;
  }

  // One walk over the words.  A register prefix is carried over to the next
  // narrow instruction, and rejected in front of anything else.
  method CheckOperandContract(ws: Text, pool: nat, maxRegs: nat) returns (err: Option<Error>)
    ensures err.None? <==> Accepts(ws, pool, maxRegs)
  {
    hide Walk; hide EnvsAt; hide LogicalOk; hide EnvsAfter; hide Span; hide Decode;
    var pc, envs, pending := 0, [], None;
    Begin(ws);
    while pc < |ws|
      invariant pc <= |ws|
                && (pending.Some? ==> pc >= 2 && pending == Some((ws[pc - 2], ws[pc - 1])) && IsPrefix(ws, pc - 2))
      invariant Reached(ws, if pending.Some? then pc - 2 else pc, envs, pool, maxRegs)
      decreases |ws| - pc
    {
      var at := if pending.Some? then pc - 2 else pc;
      var w := ws[pc];
      AtHead(ws, at, pending.Some?);
      if !Assigned(w.op) { Refused(ws, at, pool, maxRegs); return Some(UnassignedOpcode(pc)); }
      if w.op == WIDE {
        if w.c > MAX_DISC { Refused(ws, at, pool, maxRegs); return Some(UnknownDiscriminant(w.c)); }
        if pc + WideWidth(w.c) > |ws| { Refused(ws, at, pool, maxRegs); return Some(TruncatedWide(pc)); }
        if pending.Some? { Refused(ws, at, pool, maxRegs); return Some(TruncatedWide(pc)); }
        if w.c == REG_EXT {
          pending := Some((w, ws[pc + 1]));
          pc := pc + 2;
          continue;
        }
        var l := Logical(WIDE, 0, 0, 0, WideWidth(w.c), w, ws[pc + 1..pc + WideWidth(w.c)]);
        var e;
        e, envs := CheckWide(l, at, |ws|, pool, maxRegs, envs);
        if e.Some? { Refused(ws, at, pool, maxRegs); return e; }
        Advance(ws, at, pool, maxRegs);
        pc := pc + WideWidth(w.c);
        continue;
      }
      var l := Logical(w.op, w.a, w.b, w.c, 1, w, []);
      if pending.Some? {
        var (header, ext) := pending.value;
        l := Logical(w.op, Merge(header.a, 0, ext.a, w.a), Merge(header.a, 1, ext.b, w.b),
                     Merge(header.a, 2, ext.c, w.c), 3, w, []);
      }
      pending := None;
      var e;
      e, envs := CheckNarrow(l, at, |ws|, pool, maxRegs, envs);
      if e.Some? { Refused(ws, at, pool, maxRegs); return e; }
      Advance(ws, at, pool, maxRegs);
      pc := pc + 1;
    }
    if pending.Some? {
      LonePrefix(ws, pc - 2);
      Refused(ws, pc - 2, pool, maxRegs);
      return Some(TruncatedWide(|ws|));
    }
    Finished(ws, envs, pool, maxRegs);
    return None;
  }

  // ---- the walk's invariant ------------------------------------------------

  predicate IsPrefix(ws: Text, p: nat) {
    p + 2 <= |ws| && ws[p].op == WIDE && ws[p].c == REG_EXT
  }

  // Everything before p passed, and envs is the stack on arrival at p.
  ghost predicate Reached(ws: Text, p: nat, envs: EnvStack, pool: nat, maxRegs: nat) {
    && Place(ws, p) && envs == EnvsAt(ws, 0, [], p)
    && forall q: nat :: q < p && IsHead(ws, true, q) ==> InstrOk(ws, q, EnvsAt(ws, 0, [], q), pool, maxRegs)
  }

  lemma Begin(ws: Text)
    ensures Place(ws, 0) && EnvsAt(ws, 0, [], 0) == []
  {
  }

  // The instruction the loop looks at, as the machine decodes it.
  lemma AtHead(ws: Text, at: nat, prefixed: bool)
    requires Place(ws, at) && at < |ws| && (prefixed ==> IsPrefix(ws, at) && at + 2 < |ws|)
    ensures IsHead(ws, true, at)
    ensures var w := if prefixed then ws[at + 2] else ws[at];
            && (!Assigned(w.op) || (w.op == WIDE && prefixed) || (w.op == WIDE
                                                                  && (w.c > MAX_DISC || at + WideWidth(w.c) > |ws|)) ==>
                                                                    Decode(ws, at).None?)
            && (w.op == WIDE && !prefixed && w.c <= MAX_DISC && w.c != REG_EXT && at + WideWidth(w.c) <= |ws| ==>
                  Decode(ws, at) == Some(Logical(WIDE, 0, 0, 0, WideWidth(w.c), w, ws[at + 1..at + WideWidth(w.c)])))
            && (Assigned(w.op) && w.op != WIDE ==>
                  Decode(ws, at) ==
                  Some(if prefixed then
                         Logical(w.op, Merge(ws[at].a, 0, ws[at + 1].a, w.a), Merge(ws[at].a, 1, ws[at + 1].b, w.b),
                                 Merge(ws[at].a, 2, ws[at + 1].c, w.c), 3, w, [])
                       else Logical(w.op, w.a, w.b, w.c, 1, w, [])))
  {
    hide Walk; hide Merge;
  }

  lemma LonePrefix(ws: Text, p: nat)
    requires IsPrefix(ws, p) && p + 2 == |ws| && Place(ws, p)
    ensures IsHead(ws, true, p) && Decode(ws, p).None?
  {
    hide Walk;
  }

  lemma Refused(ws: Text, p: nat, pool: nat, maxRegs: nat)
    requires IsHead(ws, true, p) && !InstrOk(ws, p, EnvsAt(ws, 0, [], p), pool, maxRegs)
    ensures !Accepts(ws, pool, maxRegs)
  {
    hide Walk; hide EnvsAt; hide InstrOk;
  }

  // One instruction further.
  lemma Advance(ws: Text, p: nat, pool: nat, maxRegs: nat)
    requires IsHead(ws, true, p) && Reached(ws, p, EnvsAt(ws, 0, [], p), pool, maxRegs)
    requires InstrOk(ws, p, EnvsAt(ws, 0, [], p), pool, maxRegs)
    ensures Decode(ws, p).Some? && Decoded(Decode(ws, p).value)
    ensures Reached(ws, p + Decode(ws, p).value.width, EnvsAfter(Decode(ws, p).value, EnvsAt(ws, 0, [], p)), pool,
                    maxRegs)
  {
    hide Walk; hide EnvsAt; hide LogicalOk; hide EnvsAfter; hide Decode;
    var next := p + Span(ws, p, true);
    NextPlace(ws, p);
    EnvsNext(ws, 0, [], p);
    forall q: nat | q < next && IsHead(ws, true, q) ensures InstrOk(ws, q, EnvsAt(ws, 0, [], q), pool, maxRegs) {
      if p < q { WalkApart(ws, true, 0, p, q); }
    }
  }

  lemma {:induction false} EnvsNext(ws: Text, from: nat, envs: EnvStack, p: nat)
    requires from <= |ws| && p < |ws| && Walk(ws, true, from, p) && Decode(ws, p).Some? && Decoded(Decode(ws, p).value)
    ensures EnvsAt(ws, from, envs, p + Span(ws, p, true)) == EnvsAfter(Decode(ws, p).value, EnvsAt(ws, from, envs, p))
    decreases |ws| - from
  {
    hide EnvsAfter; hide Decode; hide Span;
    WalkOrder(ws, true, from, p);
    var d := Decode(ws, from);
    if from < p {
      var next := from + Span(ws, from, true);
      WalkOrder(ws, true, next, p);
      EnvsNext(ws, next, if d.Some? && DecodedFine(ws, from) then EnvsAfter(d.value, envs) else envs, p);
    }
  }

  lemma Finished(ws: Text, envs: EnvStack, pool: nat, maxRegs: nat)
    requires Reached(ws, |ws|, envs, pool, maxRegs)
    ensures Accepts(ws, pool, maxRegs)
  {
    hide Walk; hide EnvsAt; hide InstrOk;
  }

  // ---- soundness over whole runs -----------------------------------------

  // A window of registers whose length the validator does not look at: the header and
  // arguments of a call, or the excluded keys of a wide object rest.
  predicate OpenWindow(l: Logical) {
    if l.op == WIDE then l.word.c == CALL_W || l.word.c == 10 || l.word.c == 5
    else RolesOf(l.op).b.Callee?
  }

  // The first register of that window, which is an operand like any other.
  function WindowBase(l: Logical): nat
    requires Decoded(l)
  {
    if l.op != WIDE then l.b
    else if l.word.c == 5 then l.payload[1].Hi()
    else l.payload[0].Lo()
  }

  // The instruction touches registers of its frame and constants of its pool only: every
  // register operand, and everything it reads but what lies behind the base of an open window.
  ghost predicate Safe(l: Logical, pool: nat, maxRegs: nat)
    requires Decoded(l)
  {
    && (if l.op == WIDE then
        forall r :: r in WideRegisters(l.word.c, l.payload) ==> r < maxRegs else RegistersOk(l, maxRegs))
    && (forall r :: r in UsesOf(l) ==> r < maxRegs || (OpenWindow(l) && r > WindowBase(l)))
    && (OpenWindow(l) ==> WindowBase(l) < maxRegs)
    && (ShapeOf(l).write.Some? ==> ShapeOf(l).write.value < maxRegs)
    && (l.op == LOAD_CONST ==> l.word.Imm16() < pool)
    && (l.op == WIDE && l.word.c == LOAD_CONST_W ==> ShapeOf(l).imms[0] < pool)
  }

  lemma NarrowSafe(l: Logical, maxRegs: nat)
    requires l.op != WIDE && RegistersOk(l, maxRegs) && WindowsOk(l, maxRegs)
    ensures forall r :: r in NarrowShape(l).uses ==> r < maxRegs || (OpenWindow(l) && r > l.b)
    ensures OpenWindow(l) ==> l.b < maxRegs
    ensures NarrowShape(l).write.Some? ==> NarrowShape(l).write.value < maxRegs
  {
    assert Operand(l, 0) == l.a && Operand(l, 1) == l.b && Operand(l, 2) == l.c;
    hide RolesOf;
    var r := RolesOf(l.op);
    assert RoleAt(l.op, 0) == r.a && RoleAt(l.op, 1) == r.b && RoleAt(l.op, 2) == r.c;

    SlotSafe(r.a, l.a, 0, maxRegs);
    var count := if r.c.Count? then l.c else 0;
    if OpenWindow(l) { } else { SlotSafe(r.b, l.b, count, maxRegs); }
    SlotSafe(r.c, l.c, 0, maxRegs);
  }

  lemma SlotSafe(r: Role, reg: nat, count: nat, maxRegs: nat)
    requires IsRegister(r) ==> reg < maxRegs
    requires !r.Callee? && (r.ElemBase? ==> reg + count < maxRegs) && (r.Pair? ==> reg + 1 < maxRegs)
    ensures forall u :: u in SlotReads(r, reg, count) ==> u < maxRegs
  {
  }

  lemma WideSafe(l: Logical, maxRegs: nat)
    requires l.op == WIDE && Decoded(l) && forall r :: r in WideRegisters(l.word.c, l.payload) ==> r < maxRegs
    ensures forall r :: r in UsesOf(l) ==> r < maxRegs || (OpenWindow(l) && r > WindowBase(l))
    ensures OpenWindow(l) ==> WindowBase(l) < maxRegs
    ensures ShapeOf(l).write.Some? ==> ShapeOf(l).write.value < maxRegs
    ensures l.word.c == LOAD_CONST_W ==> ShapeOf(l).imms[0] == WideConst(l.payload)
  {
    hide Instr.Hi; hide Instr.Lo; hide Instr.Raw;
    var p := l.payload;
    var p2 := if |p| > 1 then p[1] else p[0];
    var ws := WideRegisters(l.word.c, p);
    var sh := WideShape(l.word.c, p);
    assert |ws| > 0 ==> ws[0] in ws;
    assert |ws| > 1 ==> ws[1] in ws;
    assert |ws| > 2 ==> ws[2] in ws;
    assert |ws| > 3 ==> ws[3] in ws;
  }

  // What a run keeps: the pc at an instruction or the end, registers in the frame.
  ghost predicate Framed(ws: Text, maxRegs: nat, s: State) {
    Place(ws, s.pc) && forall r :: r in s.regs ==> r < maxRegs
  }

  ghost predicate HandlersFramed(c: Code, maxRegs: nat) {
    forall i :: 0 <= i < |c.handlers| ==> Place(c.instrs, c.handlers[i].target) && c.handlers[i].depth < maxRegs
  }

  lemma EffectFramed(m: Machine, maxRegs: nat, l: Logical, s: State)
    requires Decoded(l) && Safe(l, |m.code.consts|, maxRegs) && forall r :: r in s.regs ==> r < maxRegs
    ensures var e := Exec(m.code, m.host, l, s.regs, s.tr);
            && (e.Next? ==> forall r :: r in e.regs ==> r < maxRegs)
            && (e.Bad? ==> l.op == GEN_RESUME_MODE)
            && (e.Goto? ==> IsBranch(l.op) && e.pc == BranchOf(l))
  {
    hide UsesOf; hide PureBinary; hide Instr.Imm16; hide Instr.Imm24; hide WideShape; hide NarrowShape; hide Instr.Raw;
    hide Instr.Lo; hide Signed64;
    if l.op == WIDE { WideWrite(l); } else { NarrowWrite(l); }
  }

  lemma NarrowWrite(l: Logical)
    ensures l.op == MOVE || l.op == LOAD_INT || l.op == LOAD_CONST || l.op == NOT || IsBinary(l.op) ==>
              NarrowShape(l).write == Some(l.a)
  {
  }

  lemma WideWrite(l: Logical)
    requires l.op == WIDE && Decoded(l)
    ensures l.word.c == LOAD_INT_W ==> ShapeOf(l).write == Some(l.payload[2].Lo())
    ensures l.word.c == LOAD_CONST_W ==> ShapeOf(l).write.Some?
  {
  }

  lemma StepFramed(m: Machine, maxRegs: nat, s: State)
    requires Accepts(m.code.instrs, |m.code.consts|, maxRegs) && TargetsOk(m.code.instrs)
             && HandlersFramed(m.code, maxRegs)
    requires Framed(m.code.instrs, maxRegs, s)
    ensures s.pc < |m.code.instrs| ==> Decode(m.code.instrs, s.pc).Some? && Decoded(Decode(m.code.instrs, s.pc).value)
                                       && Safe(Decode(m.code.instrs, s.pc).value, |m.code.consts|, maxRegs)
    ensures match Step(m, s)
            case Running(t) => Framed(m.code.instrs, maxRegs, t)
            case Done(f) => f.res.Stuck? ==>
              s.pc < |m.code.instrs| && Decode(m.code.instrs, s.pc).value.op == GEN_RESUME_MODE
  {
    hide Instr.Imm24; hide Instr.Imm16;
    var ws := m.code.instrs;
    if s.pc < |ws| {
      assert IsHead(ws, true, s.pc);
      var l := Decode(ws, s.pc).value;
      assert Safe(l, |m.code.consts|, maxRegs) by {
        if l.op == WIDE { WideSafe(l, maxRegs); } else { NarrowSafe(l, maxRegs); }
      }
      EffectFramed(m, maxRegs, l, s);
      NextPlace(ws, s.pc);
      if EffectAt(m, s).Goto? { BranchPlace(ws, s.pc); }
    }
  }

  // Validator soundness: if the walk accepts and branches and handlers go to
  // instructions, then at every reachable state the pc is an instruction or the end,
  // every register operand, element window, accessor pair and constant of the next
  // instruction is in range, no register outside the frame was ever written, and the
  // machine is not stuck (but for the one opcode it has no meaning for).
  lemma {:induction false} ValidatorSound(m: Machine, maxRegs: nat, s: State, n: nat, t: State)
    requires Accepts(m.code.instrs, |m.code.consts|, maxRegs) && TargetsOk(m.code.instrs)
             && HandlersFramed(m.code, maxRegs)
    requires Framed(m.code.instrs, maxRegs, s) && Runs(m, s, n, t)
    ensures Framed(m.code.instrs, maxRegs, t)
    ensures t.pc < |m.code.instrs| ==> Decode(m.code.instrs, t.pc).Some? && Decoded(Decode(m.code.instrs, t.pc).value)
                                       && Safe(Decode(m.code.instrs, t.pc).value, |m.code.consts|, maxRegs)
    ensures Step(m, t).Done? && Step(m, t).f.res.Stuck? ==> Decode(m.code.instrs, t.pc).value.op == GEN_RESUME_MODE
    decreases n
  {
    hide Walk; hide Decode; hide Step; hide Accepts; hide TargetsOk; hide HandlersFramed; hide Safe; hide Framed;
    StepFramed(m, maxRegs, s);
    if n > 0 { ValidatorSound(m, maxRegs, Step(m, s).s, n - 1, t); }
  }

  // ---- the array window ----------------------------------------------------

  // An array literal's window [b, b + c) is asked to end one register early: every
  // register the instruction touches is in range and the check still rejects it exactly
  // when the window ends where the frame does.
  lemma ArrayWindow(l: Logical, maxRegs: nat)
    requires l.op == NEW_ARRAY && RegistersOk(l, maxRegs)
    ensures (forall r :: r in NarrowShape(l).uses ==> r < maxRegs) <==> l.b + l.c <= maxRegs
    ensures WindowsOk(l, maxRegs) <==> l.b + l.c < maxRegs
  {
    assert l.b < maxRegs && NarrowShape(l).uses == Window(l.b, l.c)
      && (WindowsOk(l, maxRegs) <==> l.b + l.c < maxRegs) by {
      assert RoleAt(l.op, 1).ElemBase? && Operand(l, 1) == l.b < maxRegs;
    }
    var uses := NarrowShape(l).uses;
    assert uses == Window(l.b, l.c);
    if l.c > 0 { assert uses[l.c - 1] == l.b + l.c - 1 && uses[l.c - 1] in uses; }
  }

  // `r0 = [r1, r2, r3]` in a frame of four registers.
  const ARRAY_OF_THREE: Text := [Instr(NEW_ARRAY, 0, 1, 3)]

  lemma ArrayRejected(ws: Text, pool: nat)
    requires ws == ARRAY_OF_THREE
    ensures Decode(ws, 0).Some? && forall r :: r in UsesAt(ws, 0) ==> r < 4
    ensures !Accepts(ws, pool, 4) && Accepts(ws, pool, 5)
  {
    hide Walk; hide InstrOk;
    StartsAt(ws, true);
    var l := Logical(NEW_ARRAY, 0, 1, 3, 1, ws[0], []);
    assert Decode(ws, 0) == Some(l);
    assert RegistersOk(l, 4) && RegistersOk(l, 5) && FlagsOk(l) by {
      assert RoleAt(l.op, 0).Dst? && RoleAt(l.op, 1).ElemBase? && RoleAt(l.op, 2).Count?;
      assert Operand(l, 0) == 0 && Operand(l, 1) == 1;
    }
    ArrayWindow(l, 4);
    ArrayWindow(l, 5);
    ArrayVerdict(ws, l, pool, 4);
    ArrayVerdict(ws, l, pool, 5);
    Refused(ws, 0, pool, 4);
  }

  lemma ArrayVerdict(ws: Text, l: Logical, pool: nat, maxRegs: nat)
    requires |ws| == 1 && Decode(ws, 0) == Some(l) && l.op == NEW_ARRAY && RegistersOk(l, maxRegs) && FlagsOk(l)
    ensures InstrOk(ws, 0, [], pool, maxRegs) <==> WindowsOk(l, maxRegs)
  {
    hide RegistersOk; hide WindowsOk; hide FlagsOk;
  }
}
