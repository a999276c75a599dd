/**
 One lemma per emission primitive: how it extends the listing of the stretch it is in.
 */
module ListingSteps {
  import opened Words
  import opened Machine
  import opened Assembly
  import opened Source
  import opened Lowering
  import opened Growth
  import opened Steps
  import opened Listing

  // Register r is within reach of a stretch from b to cx, and not spent.
  ghost predicate Free(b: Ctx, cx: Ctx, os: Ops, base: nat, ins: set<nat>, r: nat) {
    ScopeOf(b, cx, base, ins).Has(r) && !Spends(os, r)
  }

  // os' extends os by instructions that spend nothing and mark nothing.
  ghost predicate Adds(os: Ops, os': Ops) {
    && os <= os'
    && (forall r :: Spends(os', r) ==> Spends(os, r))
    && (forall k :: |os| <= k < |os'| ==> !os'[k].Mark?)
    && (Shielded(os) ==> Shielded(os'))
    && (LoudBefore(os, |os|) ==> LoudBefore(os', |os'|))
  }

  ghost predicate Loud(os: Ops) { LoudBefore(os, |os|) }

  // Nothing of os produces r.
  ghost predicate NeverMade(os: Ops, r: nat) { forall k :: 0 <= k < |os| && Produces(os[k]) ==> os[k].x != r }

  // ---- beginning and elements -------------------------------------------

  lemma Begin(b: Ctx, base: nat, ins: set<nat>)
    requires Small(b, base) && forall r :: r in ins ==> r < b.top
    ensures Region(b, b, [], base, ins) && Shielded([]) && forall r :: !Spends([], r)
  {
  }

  lemma ShieldedLeft(os: Ops, more: Ops)
    requires Shielded(os)
    ensures forall k :: 0 <= k < |os| && (os + more)[k].Mark? ==> LoudBefore(os + more, k)
  {
    hide Quiet;
    forall k | 0 <= k < |os| && (os + more)[k].Mark? ensures LoudBefore(os + more, k) {
      assert os[k].Mark?;
      var j :| 0 <= j < k && !Quiet(os[j]);
      assert (os + more)[j] == os[j];
    }
  }

  lemma AddsTrans(a: Ops, b: Ops, c: Ops)
    requires Adds(a, b) && Adds(b, c)
    ensures Adds(a, c)
  {
    hide Spends; hide Shielded; hide LoudBefore;
    forall k | |a| <= k < |c| ensures !c[k].Mark? {
      if k < |b| { assert c[k] == b[k]; }
    }
  }

  lemma FrugalSnoc(os: Ops, o: Op)
    requires Frugal(os) && !Folds(o) && forall r :: r in Uses(o) ==> !Spends(os, r)
    ensures Frugal(os + [o])
  {
    hide Uses; hide Quiet;
    var os' := os + [o];
    forall i1: nat, i2: nat, q: nat | Fed(os', i1, i2, q) ensures ReadOnce(os', q) && Unmarked(os', i1, i2, q) {
      assert q < |os|;
      FedLeft(os, [o], i1, i2, q);
      assert SpentBy(os[q], os[q].y) && SpentBy(os[q], os[q].z);
    }
  }

  // One more instruction.
  lemma StepAny(b: Ctx, cx: Ctx, f: Ctx, os: Ops, o: Op, base: nat, ins: set<nat>)
    requires Region(b, cx, os, base, ins) && Frugal(os + [o])
    requires f.items == cx.items + ItemsOf(o) && f == cx.(items := f.items, consts := f.consts)
    requires cx.consts <= f.consts && |f.consts| <= MAX_CONSTANTS
    requires OpOk(o, ScopeOf(b, cx, base, ins), |f.consts|)
    ensures Region(b, f, os + [o], base, ins)
  {
    hide ItemsOf; hide Frugal; hide OpOk; hide MarkedAt; hide Items;
    ItemsSnoc(os, o);
    var sc := ScopeOf(b, cx, base, ins);
    forall k | 0 <= k < |os| ensures OpOk(os[k], sc, |f.consts|) { OpWiden(os[k], sc, |cx.consts|, sc, |f.consts|); }
    forall pos | MarkedAt(os, |b.items|, pos)
      ensures MarkedAt(os + [o], |b.items|, pos)
    {
      MarkedLeft(os, [o], |b.items|, pos);
    }
  }

  lemma StepOp(b: Ctx, cx: Ctx, f: Ctx, os: Ops, o: Op, base: nat, ins: set<nat>)
    requires Region(b, cx, os, base, ins) && !o.Mark? && !Folds(o)
    requires f.items == cx.items + ItemsOf(o) && f == cx.(items := f.items, consts := f.consts)
    requires cx.consts <= f.consts && |f.consts| <= MAX_CONSTANTS
    requires OpOk(o, ScopeOf(b, cx, base, ins), |f.consts|) && forall r :: r in Uses(o) ==> !Spends(os, r)
    ensures Region(b, f, os + [o], base, ins) && Adds(os, os + [o]) && (!Quiet(o) ==> Loud(os + [o]))
  {
    hide Quiet;

    assert Adds(os, os + [o]) && (!Quiet(o) ==> Loud(os + [o])) by {
      var os' := os + [o];
      forall r | Spends(os', r) ensures Spends(os, r) {
        var k :| 0 <= k < |os'| && SpentBy(os'[k], r);
        assert k < |os| && os[k] == os'[k];
      }
      if LoudBefore(os, |os|) {
        var j :| 0 <= j < |os| && !Quiet(os[j]);
        assert os'[j] == os[j];
      }
      if !Quiet(o) { assert os'[|os|] == o; }
      if Shielded(os) { ShieldedLeft(os, [o]); }
    }
    FrugalSnoc(os, o);
    StepAny(b, cx, f, os, o, base, ins);
  }

  // ---- registers, labels and handlers -----------------------------------

  lemma StepTemps(b: Ctx, cx: Ctx, os: Ops, base: nat, ins: set<nat>, n: nat)
    requires Region(b, cx, os, base, ins) && n >= 1 && !NewTemps(cx, n).0.failed
    ensures var (f, r) := NewTemps(cx, n);
            && Region(b, f, os, base, ins) && r == cx.top && f.top == cx.top + n
            && f.labels == cx.labels && f.items == cx.items && !Spends(os, r)
  {
    hide Items; hide Frugal; hide OpOk; hide Spends; hide MarkedAt;
    var f := NewTemps(cx, n).0;
    var (sc, sc') := (ScopeOf(b, cx, base, ins), ScopeOf(b, f, base, ins));
    forall k | 0 <= k < |os| ensures OpOk(os[k], sc', |f.consts|) { OpWiden(os[k], sc, |cx.consts|, sc', |f.consts|); }
    if Spends(os, cx.top) { SpendsOwn(b, cx, os, base, ins, cx.top); }
  }

  lemma StepLabel(b: Ctx, cx: Ctx, os: Ops, base: nat, ins: set<nat>)
    requires Region(b, cx, os, base, ins)
    ensures Region(b, NewLabel(cx).0, os, base, ins)
  {
    hide Items; hide Frugal; hide OpsOk; hide MarkedAt;
  }

  lemma StepBind(b: Ctx, cx: Ctx, os: Ops, base: nat, ins: set<nat>, l: nat)
    requires Region(b, cx, os, base, ins) && !Bind(cx, l).failed
    ensures Region(b, Bind(cx, l), os + [Mark], base, ins) && forall r :: Spends(os + [Mark], r) ==> Spends(os, r)
    ensures Loud(os) ==> Loud(os + [Mark]) && (Shielded(os) ==> Shielded(os + [Mark]))
  {
    hide Items; hide Frugal; hide OpOk; hide Spends; hide Quiet;
    var os' := os + [Mark];
    var sc := ScopeOf(b, cx, base, ins);
    FrugalSnoc(os, Mark);
    ItemsSnoc(os, Mark);
    assert forall k :: 0 <= k < |os| ==> OpOk(os[k], sc, |cx.consts|);
    assert OpOk(Mark, sc, |cx.consts|) by { MarkOk(sc, |cx.consts|); }
    assert os'[..|os|] == os && os'[|os|].Mark?;
    assert MarkedAt(os', |b.items|, |cx.items|);
    assert Placed(b, Bind(cx, l), os + [Mark]) by {
      forall pos | MarkedAt(os, |b.items|, pos)
        ensures MarkedAt(os + [Mark], |b.items|, pos)
      {
        MarkedLeft(os, [Mark], |b.items|, pos);
      }
    }
    MarkSpends(os);
    if Loud(os) {
      var j :| 0 <= j < |os| && !Quiet(os[j]);
      assert os'[j] == os[j];
      if Shielded(os) { ShieldedLeft(os, [Mark]); }
    }
  }

  lemma MarkOk(sc: Scope, pool: nat)
    ensures OpOk(Mark, sc, pool)
  {
  }

  lemma MarkSpends(os: Ops)
    ensures forall r :: Spends(os + [Mark], r) ==> Spends(os, r)
  {
    forall r | Spends(os + [Mark], r) ensures Spends(os, r) {
      var k :| 0 <= k < |os + [Mark]| && SpentBy((os + [Mark])[k], r);
      assert k < |os| && os[k] == (os + [Mark])[k];
    }
  }

  // A branch.
  lemma StepJump(b: Ctx, cx: Ctx, os: Ops, base: nat, ins: set<nat>, op: Opcode, reg: nat, l: nat)
    requires Region(b, cx, os, base, ins) && IsBranch(op) && (op == JUMP ==> reg == 0)
    requires op != JUMP ==> Free(b, cx, os, base, ins, reg)
    ensures var os' := os + [Jump(op, reg, l)];
            Region(b, EmitJump(cx, op, reg, l), os', base, ins) && Adds(os, os')
  {
    hide Spends; hide Placed; hide OpsOk; hide Frugal; hide Adds;
    var f := EmitJump(cx, op, reg, l);
    assert f.items == cx.items + ItemsOf(Jump(op, reg, l));
    StepOp(b, cx, f, os, Jump(op, reg, l), base, ins);
  }

  // ---- register instructions --------------------------------------------

  // What the lowered opcodes read and write.
  lemma RegShape(op: Opcode, x: nat, y: nat, z: nat, mask: Byte)
    requires Lowered(op)
    ensures var o := Reg(op, x, y, z, mask);
            && Uses(o) == (if op == LOAD_CONST || op == LOAD_INT || op == LOOP_HEADER then []
                           else if op == RETURN || op == THROW || op == ITERATOR_CLOSE then [x]
                           else if op == CALL then Window(y, CALL_HEADER_REGS + z)
                           else if op == MOVE || op == GET_ITERATOR || op == ITERATOR_NEXT || UnaryOp(op) then [y]
                           else [y, z])
            && Writes(o) == if op == LOOP_HEADER || op == RETURN || op == THROW || op == ITERATOR_CLOSE then None
              else Some(x)
  {
    LoweredRoles(op);
    hide RolesOf;
  }

  lemma LoweredRoles(op: Opcode)
    requires Lowered(op)
    ensures op != ARRAY_APPEND && op != MERGE_OBJECT
    ensures RolesOf(op) == (if op == LOAD_CONST then Roles(Dst, Imm, Imm)
                            else if op == LOAD_INT then Roles(Dst, Unused, Imm)
                            else if op == LOOP_HEADER then Roles(Unused, Unused, Unused)
                            else if op == RETURN || op == THROW then Roles(Src, Unused, Unused)
                            else if op == ITERATOR_CLOSE then Roles(Src, Flag, Unused)
                            else if op == CALL then Roles(Dst, Callee, Count)
                            else if op == MOVE || op == GET_ITERATOR || op == ITERATOR_NEXT
                              || UnaryOp(op) then Roles(Dst, Src, Unused)
                            else Roles(Dst, Src, Src))
  {
  }

  // A register instruction that is neither a literal nor arithmetic.
  lemma StepReg(b: Ctx, cx: Ctx, os: Ops, base: nat, ins: set<nat>, op: Opcode, x: nat, y: nat, z: nat, mask: Byte)
    requires Region(b, cx, os, base, ins) && Lowered(op) && op != LOAD_CONST && op != LOAD_INT && !IsFoldable(op)
    requires var o := Reg(op, x, y, z, mask);
             && (forall r :: r in Uses(o) ==> Free(b, cx, os, base, ins, r))
             && (Writes(o).Some? ==> ScopeOf(b, cx, base, ins).Has(x))
             && FitsMask(x, y, z, mask) && Padded(op, x, y, z) && (op == ITERATOR_CLOSE ==> y <= 1)
    ensures var os' := os + [Reg(op, x, y, z, mask)];
            Region(b, EmitRegs(cx, op, x, y, z, mask), os', base, ins) && Adds(os, os') && Loud(os')
  {
    hide Spends; hide Placed; hide OpsOk; hide Frugal; hide Adds; hide EncodeRegs; hide Lowered; hide FitsMask;
    hide LoudBefore; hide Padded;
    var o := Reg(op, x, y, z, mask);
    RegShape(op, x, y, z, mask);
    assert !Quiet(o);
    StepOp(b, cx, EmitRegs(cx, op, x, y, z, mask), os, o, base, ins);
  }

  // Registers within reach fit sixteen bits.
  lemma ReachFits(b: Ctx, cx: Ctx, os: Ops, base: nat, ins: set<nat>, r: nat)
    requires Region(b, cx, os, base, ins) && ScopeOf(b, cx, base, ins).Has(r)
    ensures r < MAX_REGS
  {
    hide Placed; hide OpsOk; hide Frugal;
  }

  lemma StepMove(b: Ctx, cx: Ctx, os: Ops, base: nat, ins: set<nat>, dst: nat, src: nat)
    requires Region(b, cx, os, base, ins) && ScopeOf(b, cx, base, ins).Has(dst) && Free(b, cx, os, base, ins, src)
    ensures var os' := os + [Reg(MOVE, dst, src, 0, 3)];
            Region(b, MoveReg(cx, dst, src), os', base, ins) && Adds(os, os') && Loud(os')
  {
    hide Placed; hide OpsOk; hide Frugal; hide Adds; hide Free; hide Region; hide LoudBefore; hide EncodeRegs;
    hide Uses; hide Writes;
    ReachFits(b, cx, os, base, ins, dst);
    ReachFits(b, cx, os, base, ins, src) by { FreeReach(b, cx, os, base, ins, src); }
    RegShape(MOVE, dst, src, 0, 3);
    StepReg(b, cx, os, base, ins, MOVE, dst, src, 0, 3);
  }

  lemma FreeReach(b: Ctx, cx: Ctx, os: Ops, base: nat, ins: set<nat>, r: nat)
    requires Free(b, cx, os, base, ins, r)
    ensures ScopeOf(b, cx, base, ins).Has(r)
  {
    hide Spends;
  }

  // Locals and what is handed in are never spent.
  lemma FreeOuter(b: Ctx, cx: Ctx, os: Ops, base: nat, ins: set<nat>, r: nat)
    requires Region(b, cx, os, base, ins) && (r <= base || r in ins)
    ensures Free(b, cx, os, base, ins, r)
  {
    hide Spends; hide Placed; hide OpsOk; hide Frugal;
    if Spends(os, r) { SpendsOwn(b, cx, os, base, ins, r); }
  }

  // A temporary is free as long as it is not spent.
  lemma FreeTemp(b: Ctx, cx: Ctx, os: Ops, base: nat, ins: set<nat>, r: nat)
    requires b.top <= r < cx.top && !Spends(os, r)
    ensures Free(b, cx, os, base, ins, r)
  {
    hide Spends;
  }

  // ---- literals ---------------------------------------------------------

  // os' has one more instruction, which reads nothing.
  ghost predicate OneLiteral(os: Ops, os': Ops) { |os'| == |os| + 1 && Uses(os'[|os|]) == [] }

  // What is never produced in os is not in os' either, as far as registers below top go.
  ghost predicate SameMade(os: Ops, os': Ops, top: nat) {
    forall r: nat :: r < top && NeverMade(os, r) ==> NeverMade(os', r) }

  lemma StepConst(b: Ctx, cx: Ctx, os: Ops, base: nat, ins: set<nat>, dst: nat, v: Val) returns (os': Ops)
    requires Region(b, cx, os, base, ins) && !LoadConst(cx, dst, v).failed && ScopeOf(b, cx, base, ins).Has(dst)
    ensures Region(b, LoadConst(cx, dst, v), os', base, ins) && Adds(os, os') && Loud(os')
    ensures LoadConst(cx, dst, v).top == cx.top && LoadConst(cx, dst, v).labels == cx.labels
    ensures forall r :: NeverMade(os, r) ==> NeverMade(os', r)
  {
    var (cx1, k) := AddConst(cx, v);
    var o := Reg(LOAD_CONST, dst, k / 256, k % 256, 1);
    os' := os + [o];
    ReachFits(b, cx, os, base, ins, dst);

    RegShape(LOAD_CONST, dst, k / 256, k % 256, 1);
    assert FitsMask(dst, k / 256, k % 256, 1) && k / 256 * 256 + k % 256 == k;
    assert OpOk(o, ScopeOf(b, cx, base, ins), |cx1.consts|);
    StepOp(b, cx, LoadConst(cx, dst, v), os, o, base, ins);
  }

  lemma StepInt(b: Ctx, cx: Ctx, os: Ops, base: nat, ins: set<nat>, dst: nat, v: int) returns (os': Ops)
    requires Region(b, cx, os, base, ins) && b.top <= dst < cx.top
    ensures Region(b, LoadInt(cx, dst, v), os', base, ins) && Adds(os, os') && OneLiteral(os, os')
    ensures forall r :: r != dst && NeverMade(os, r) ==> NeverMade(os', r)
  {
    hide Spends; hide Placed; hide OpsOk; hide Frugal; hide Adds; hide EncodeIntW; hide Region;
    ReachFits(b, cx, os, base, ins, dst);
    var o := if -128 <= v <= 127 && dst <= 255 then Reg(LOAD_INT, dst, 0, Low8(v), 1) else IntW(dst, v);
    os' := os + [o];
    RegShape(LOAD_INT, dst, 0, Low8(v), 1);
    assert OpOk(o, ScopeOf(b, cx, base, ins), |cx.consts|);
    StepOp(b, cx, LoadInt(cx, dst, v), os, o, base, ins) by { RegionBounds(b, cx, os, base, ins); }
  }

  lemma RegionBounds(b: Ctx, cx: Ctx, os: Ops, base: nat, ins: set<nat>)
    requires Region(b, cx, os, base, ins)
    ensures |cx.consts| <= MAX_CONSTANTS && base < b.top <= cx.top <= MAX_REGS && !cx.failed
  {
    hide Placed; hide OpsOk; hide Frugal;
  }

  // A boolean: a scratch zero compared with itself.
  lemma StepBool(b: Ctx, cx: Ctx, os: Ops, base: nat, ins: set<nat>, dst: nat, v: bool) returns (os': Ops)
    requires Region(b, cx, os, base, ins) && !LoadBool(cx, dst, v).failed && ScopeOf(b, cx, base, ins).Has(dst)
             && dst < cx.top
    ensures Region(b, LoadBool(cx, dst, v), os', base, ins) && Adds(os, os') && Loud(os')
    ensures LoadBool(cx, dst, v).top == cx.top + 1 && LoadBool(cx, dst, v).labels == cx.labels
    ensures forall r :: r != cx.top && NeverMade(os, r) ==> NeverMade(os', r)
  {
    hide Spends; hide Placed; hide OpsOk; hide Frugal; hide Adds; hide EncodeRegs; hide EncodeIntW; hide Region;
    hide Uses; hide Writes; hide LoudBefore;
    var (cx1, t) := NewTemp(cx);
    StepTemps(b, cx, os, base, ins, 1);
    RegionBounds(b, cx, os, base, ins);
    var os1 := StepInt(b, cx1, os, base, ins, t, 0);
    var cx2 := LoadInt(cx1, t, 0);
    var op := if v then EQ else NE;
    os' := os1 + [Reg(op, dst, t, t, 7)];
    RegShape(op, dst, t, t, 7);
    NotSpent(os, os1, t);
    ReachFits(b, cx2, os1, base, ins, t);
    ReachFits(b, cx2, os1, base, ins, dst);
    StepReg(b, cx2, os1, base, ins, op, dst, t, t, 7);
    AddsTrans(os, os1, os');
  }

  lemma NotSpent(os: Ops, os': Ops, r: nat)
    requires Adds(os, os') && !Spends(os, r)
    ensures !Spends(os', r)
  {
    hide Spends;
  }

  // A literal in a fresh register.
  lemma StepValue(b: Ctx, cx: Ctx, os: Ops, base: nat, ins: set<nat>, lay: Layout, dst: nat, v: Val) returns (os': Ops)
    requires Region(b, cx, os, base, ins) && !LoadValue(cx, lay, dst, v).failed && b.top <= dst < cx.top
    requires lay.localsEnd == base
    ensures Region(b, LoadValue(cx, lay, dst, v), os', base, ins) && Adds(os, os')
            && dst < LoadValue(cx, lay, dst, v).top
    ensures OneLiteral(os, os') || SameMade(os, os', cx.top)
  {
    hide EncodeIntW;

    RegionBounds(b, cx, os, base, ins);
    if v == Undefined {
      FreeOuter(b, cx, os, base, ins, base);
      StepMove(b, cx, os, base, ins, dst, base);
      os' := os + [Reg(MOVE, dst, base, 0, 3)];
    } else if v.Bool? {
      os' := StepBool(b, cx, os, base, ins, dst, v.b);
    } else if v.Num? && v.n.Int? && FitsI64(v.n.i) {
      os' := StepInt(b, cx, os, base, ins, dst, v.n.i);

    } else {
      os' := StepConst(b, cx, os, base, ins, dst, v);
    }
  }

  // ---- calls, tests for nullish, property reads -------------------------

  // Whether v is nullish, in a fresh register.
  lemma StepNullish(b: Ctx, cx: Ctx, os: Ops, base: nat, ins: set<nat>, v: nat) returns (os': Ops)
    requires Region(b, cx, os, base, ins) && !CompNullish(cx, v).0.failed && Free(b, cx, os, base, ins, v)
    ensures var (f, t) := CompNullish(cx, v);
            Region(b, f, os', base, ins) && Adds(os, os') && Loud(os') && t == cx.top + 1 && f.top == cx.top + 2
            && f.labels == cx.labels
    ensures !Spends(os', CompNullish(cx, v).1)
    ensures forall r :: NeverMade(os, r) ==> NeverMade(os', r)
  {
    hide Spends; hide Placed; hide OpsOk; hide Frugal; hide Adds; hide EncodeRegs; hide Region; hide Uses; hide Writes;
    hide LoudBefore; hide LoadConst;
    RegionBounds(b, cx, os, base, ins);
    var (cx1, n) := NewTemp(cx);
    var cx2 := LoadConst(cx1, n, Null);
    PlainConst(cx1, n, Null);
    StepTemps(b, cx, os, base, ins, 1);
    var (cx3, t) := NewTemp(cx2);
    assert !cx2.failed;
    var os1 := StepConst(b, cx1, os, base, ins, n, Null);
    StepTemps(b, cx2, os1, base, ins, 1);
    RegShape(EQ, t, v, n, 7);
    FreeReach(b, cx, os, base, ins, v);
    NotSpent(os, os1, v);
    NotSpent(os, os1, n);
    ReachFits(b, cx3, os1, base, ins, t);
    ReachFits(b, cx3, os1, base, ins, v);
    ReachFits(b, cx3, os1, base, ins, n);
    os' := os1 + [Reg(EQ, t, v, n, 7)];
    StepReg(b, cx3, os1, base, ins, EQ, t, v, n, 7);
    AddsTrans(os, os1, os');
    NotSpent(os1, os', t);
  }

  // A call window whose registers are all within reach.
  lemma StepCall(b: Ctx, cx: Ctx, os: Ops, base: nat, ins: set<nat>, w: nat, argc: nat) returns (os': Ops)
    requires Region(b, cx, os, base, ins) && b.top <= w && w + CALL_HEADER_REGS + argc <= cx.top
    requires forall r :: w <= r < w + CALL_HEADER_REGS + argc ==> !Spends(os, r)
    ensures Region(b, EmitCall(cx, w, w, argc), os', base, ins) && Adds(os, os') && Loud(os')
    ensures EmitCall(cx, w, w, argc).top == cx.top && EmitCall(cx, w, w, argc).labels == cx.labels
    ensures forall r :: NeverMade(os, r) ==> NeverMade(os', r)
  {
    hide Spends; hide Placed; hide OpsOk; hide Frugal; hide Adds; hide EncodeRegs; hide EncodeCallW; hide Region;
    hide LoudBefore; hide Writes;
    RegionBounds(b, cx, os, base, ins);
    ReachFits(b, cx, os, base, ins, w);
    var o := if argc > 255 then CallW(w, w, argc) else Reg(CALL, w, w, argc, 3);
    os' := os + [o];
    RegShape(CALL, w, w, argc, 3);
    assert Uses(o) == Window(w, CALL_HEADER_REGS + argc);
    hide Uses;
    assert Writes(o) == Some(w) by { CallWrites(w, argc); }
    if argc > 255 {
      assert OpOk(o, ScopeOf(b, cx, base, ins), |cx.consts|);
      StepOp(b, cx, EmitCall(cx, w, w, argc), os, o, base, ins);
    } else {
      StepReg(b, cx, os, base, ins, CALL, w, w, argc, 3);
    }
  }

  lemma CallWrites(w: nat, argc: nat)
    ensures Writes(if argc > 255 then CallW(w, w, argc) else Reg(CALL, w, w, argc, 3)) == Some(w)
  {
    RegShape(CALL, w, w, argc, 3);
  }
}
