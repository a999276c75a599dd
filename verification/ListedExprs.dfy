/**
 The listing of every expression: it stays within its own temporaries and the locals,
 its arithmetic reads temporaries that nothing else looks at, and control enters behind
 an instruction that is never deleted.
 */
module ListedExprs {
  import opened Words
  import opened Machine
  import opened Assembly
  import opened Source
  import opened Lowering
  import opened Growth
  import opened Steps
  import opened ExprCorrect
  import opened Listing
  import opened ListingSteps

  // ---- stretches within stretches ---------------------------------------

  // A stretch appended to another.
  lemma StepSub(b: Ctx, m: Ctx, f: Ctx, os: Ops, more: Ops, base: nat, ins: set<nat>, ins': set<nat>)
    requires Region(b, m, os, base, ins) && Region(m, f, more, base, ins')
    requires forall r :: r in ins' ==> (r in ins || b.top <= r) && !Spends(os, r)
    ensures Region(b, f, os + more, base, ins)
    ensures Shielded(os) && Shielded(more) ==> Shielded(os + more)
    ensures Loud(os) ==> Loud(os + more)
    ensures forall r :: Spends(os + more, r) ==> Spends(os, r) || Spends(more, r)
  {
    hide Region; hide Quiet;
    RegionThen(b, m, f, os, more, base, ins, ins');
    SpendsCat(os, more);
    if Shielded(os) && Shielded(more) { ShieldedCat(os, more); }
    if Loud(os) {
      var j :| 0 <= j < |os| && !Quiet(os[j]);
      assert (os + more)[j] == os[j];
    }
  }

  lemma SpendsCat(os: Ops, more: Ops)
    ensures forall r :: Spends(os + more, r) ==> Spends(os, r) || Spends(more, r)
  {
    forall r | Spends(os + more, r) ensures Spends(os, r) || Spends(more, r) {
      var k :| 0 <= k < |os + more| && SpentBy((os + more)[k], r);
      if k < |os| { assert SpentBy(os[k], r); } else { assert SpentBy(more[k - |os|], r); }
    }
  }

  lemma ShieldedCat(os: Ops, more: Ops)
    requires Shielded(os) && Shielded(more)
    ensures Shielded(os + more)
  {
    hide Quiet;
    var all := os + more;
    ShieldedLeft(os, more);
    forall k | |os| <= k < |all| && all[k].Mark? ensures LoudBefore(all, k) {
      assert more[k - |os|].Mark?;
      var j :| 0 <= j < k - |os| && !Quiet(more[j]);
      assert all[j + |os|] == more[j];
    }
  }

  // ---- where results come from ------------------------------------------

  lemma PristineLoud(os: Ops, r: nat, k: nat)
    requires k < |os| && !Quiet(os[k]) && forall i :: k < i < |os| ==> !Produces(os[i])
    ensures Pristine(os, r)
  {
    hide Quiet; hide Produces;
  }

  lemma PristineNever(os: Ops, r: nat)
    requires NeverMade(os, r)
    ensures Pristine(os, r)
  {
    hide Quiet; hide Produces;
  }

  // A register allocated later was never produced.
  lemma MadeBelow(b: Ctx, cx: Ctx, os: Ops, base: nat, ins: set<nat>, r: nat)
    requires Region(b, cx, os, base, ins) && cx.top <= r
    ensures NeverMade(os, r) && !Spends(os, r)
  {
    hide Placed; hide Frugal; hide Uses; hide Writes;
    var sc := ScopeOf(b, cx, base, ins);
    forall k | 0 <= k < |os| && Produces(os[k]) ensures os[k].x != r { assert OpOk(os[k], sc, |cx.consts|); }
    if Spends(os, r) { SpendsOwn(b, cx, os, base, ins, r); }
  }

  lemma MadeAt(os: Ops, r: nat, k: nat)
    requires NeverMade(os, r) && k < |os| && Produces(os[k])
    ensures os[k].x != r
  {
    hide Produces;
  }

  // ---- arithmetic -------------------------------------------------------

  // The operands of a sum are read by the sum alone, when they are produced right in
  // front of it.
  lemma FoldFrugal(b: Ctx, m: Ctx, f: Ctx, left: Ops, right: Ops, o: Op, base: nat)
    requires Folds(o) && Yields(b, m, left, base, o.y) && Yields(m, f, right, base, o.z)
    requires Frugal(left + right) && forall r :: r in Uses(o) ==> r == o.y || r == o.z
    ensures Frugal(left + right + [o])
  {
    hide ReadOnce; hide Unmarked; hide Region; hide Uses; hide Spends; hide Pristine; hide Shielded;
    var all := left + right + [o];
    forall i1: nat, i2: nat, q: nat | Fed(all, i1, i2, q) ensures ReadOnce(all, q) && Unmarked(all, i1, i2, q) {
      assert ReadOnce(left + right + [o], q) && Unmarked(left + right + [o], i1, i2, q) by {
        if q < |left + right| {
          FedLeft(left + right, [o], i1, i2, q);
          FoldSpends(b, m, f, left, right, o, base, q);
        } else {
          FoldFed(b, m, f, left, right, o, base, i1, i2);
        }
      }
    }
  }

  // Earlier sums do not read what this one reads.
  lemma FoldSpends(b: Ctx, m: Ctx, f: Ctx, left: Ops, right: Ops, o: Op, base: nat, q: nat)
    requires Folds(o) && Yields(b, m, left, base, o.y) && Yields(m, f, right, base, o.z)
    requires forall r :: r in Uses(o) ==> r == o.y || r == o.z
    requires q < |left + right| && Folds((left + right)[q]) && ReadOnce(left + right, q)
    ensures ReadOnce(left + right + [o], q)
  {
    hide Placed; hide Uses; hide Quiet; hide OpsOk; hide Frugal; hide Pristine; hide Shielded;
    var os := left + right;
    var (y, z) := (os[q].y, os[q].z);
    assert SpentBy(os[q], y) && SpentBy(os[q], z);
    if q < |left| {
      assert left[q] == os[q] && Spends(left, y) && Spends(left, z);
      SpendsOwn(b, m, left, base, {}, y);
      SpendsOwn(b, m, left, base, {}, z);
    } else {
      assert right[q - |left|] == os[q] && Spends(right, y) && Spends(right, z);
      SpendsOwn(m, f, right, base, {}, y);
      SpendsOwn(m, f, right, base, {}, z);
    }
  }

  lemma FoldFed(b: Ctx, m: Ctx, f: Ctx, left: Ops, right: Ops, o: Op, base: nat, i1: nat, i2: nat)
    requires Folds(o) && Yields(b, m, left, base, o.y) && Yields(m, f, right, base, o.z)
    requires Fed(left + right + [o], i1, i2, |left + right|)
    ensures ReadOnce(left + right + [o], |left + right|) && Unmarked(left + right + [o], i1, i2, |left + right|)
  {
    hide Placed; hide Uses; hide Quiet; hide OpsOk; hide Frugal; hide Spends; hide Pristine; hide Shielded;
    hide Produces;
    var all := left + right + [o];
    var (n, q) := (|left|, |left + right|);
    var (sl, sr) := (ScopeOf(b, m, base, {}), ScopeOf(m, f, base, {}));
    // the producers
    if i1 >= n { assert all[i1] == right[i1 - n]; ResultOk(right, sr, |f.consts|, i1 - n); }
    assert i1 < n && all[i1] == left[i1];
    if i2 < n { assert all[i2] == left[i2]; ResultOk(left, sl, |m.consts|, i2); }
    assert i2 >= n && all[i2] == right[i2 - n];
    // the left operand
    assert Last(left, o.y, i1) by {
      forall k | i1 <= k < n ensures Quiet(left[k]) { assert left[k] == all[k]; }
    }
    PristineAt(left, o.y, i1);
    assert Last(right, o.z, i2 - n) by {
      forall k | i2 - n <= k < |right| ensures Quiet(right[k]) { assert right[k] == all[k + n]; }
    }
    PristineAt(right, o.z, i2 - n);
    forall k | 0 <= k < |all| && k != q ensures o.y !in Uses(all[k]) && o.z !in Uses(all[k]) {
      if k < n {
        assert all[k] == left[k];
        ReadsOk(left, sl, |m.consts|, k);
      } else {
        assert all[k] == right[k - n];
        ReadsOk(right, sr, |f.consts|, k - n);
      }
    }
    // marks
    assert forall k :: 0 <= k < |right| ==> !right[k].Mark? by {
      forall k | 0 <= k < |right| ensures Quiet(right[k]) { assert right[k] == all[k + n]; }
      AllQuiet(right);
    }
    forall k | i1 < k < q || i2 < k < q ensures !all[k].Mark? {
      if k < n { assert all[k] == left[k]; } else { assert all[k] == right[k - n]; }
    }
  }

  lemma PristineAt(os: Ops, r: nat, i: nat)
    requires Pristine(os, r) && Last(os, r, i)
    ensures Unread(os, r) && forall k :: i < k < |os| ==> !os[k].Mark?
  {
    hide Last; hide Uses;
  }

  lemma AllQuiet(os: Ops)
    requires Shielded(os) && forall k :: 0 <= k < |os| ==> Quiet(os[k])
    ensures forall k :: 0 <= k < |os| ==> !os[k].Mark?
  {
    hide Quiet;
  }

  // ---- expressions ------------------------------------------------------

  lemma {:induction false} ListExpr(b: Ctx, lay: Layout, e: Expr) returns (os: Ops)
    requires WfLayout(lay) && WfExpr(lay, e) && Small(b, lay.localsEnd) && !CompExpr(b, lay, e).0.failed
    ensures Yields(b, CompExpr(b, lay, e).0, os, lay.localsEnd, CompExpr(b, lay, e).1)
    decreases e, 1
  {
    hide Region; hide Pristine; hide Shielded; hide Spends; hide LoadValue; hide MoveReg; hide EmitRegs; hide NewTemps;
    hide WfLayout; hide Small; hide Adds;
    match e
    case Lit(v) => os := ListLit(b, lay, v);
    case Local(x) =>
      MoveShape(NewTemp(b).0, NewTemp(b).1, RegOf(lay, x));
      os := ListLocal(b, lay, x);
    case Unary(op, e1) =>
      var (b1, v) := CompExpr(b, lay, e1);
      OpFails(b1, op, v, 0, 3);
      os := ListExpr(b, lay, e1);
      os := ListUnary(b, b1, os, lay.localsEnd, op, v);
    case Binary(op, x, y) =>
      var (b1, l) := CompExpr(b, lay, x);
      var (b2, r) := CompExpr(b1, lay, y);
      OpFails(b2, op, l, r, 7);
      GrowExpr(b1, lay, y);
      FailsOn(b1, b2);
      var left := ListExpr(b, lay, x);
      YieldsSmall(b, b1, left, lay.localsEnd, l);
      var right := ListExpr(b1, lay, y);
      os := ListBinary(b, b1, b2, left, right, lay.localsEnd, op, l, r);
    case ShortCircuit(_, _, _) => os := ListLogic(b, lay, e);
    case Cond(_, _, _) => os := ListCond(b, lay, e);
    case Comma(x, y) =>
      var b1 := CompExpr(b, lay, x).0;
      var (f, r) := CompExpr(b1, lay, y);
      GrowExpr(b1, lay, y);
      FailsOn(b1, f);
      var left := ListExpr(b, lay, x);
      YieldsSmall(b, b1, left, lay.localsEnd, CompExpr(b, lay, x).1);
      var right := ListExpr(b1, lay, y);
      os := left + right;
      assert Yields(b, f, left + right, lay.localsEnd, r) by {
        StepSub(b, b1, f, left, right, lay.localsEnd, {}, {});
        OperandsKept(b, b1, f, left, right, lay.localsEnd, (CompExpr(b, lay, x).1), r);
        PristineRight(b, b1, f, left, right, lay.localsEnd, r);
      }
    case Assign(x, e1) =>
      var (b1, r) := CompExpr(b, lay, e1);
      MoveShape(b1, RegOf(lay, x), r);
      os := ListExpr(b, lay, e1);
      os := ListAssign(b, b1, os, lay, x, r);
    case Chain(_, _) => os := ListChain(b, lay, e);
  }

  // ---- failing contexts -------------------------------------------------

  lemma FailsOn(b: Ctx, f: Ctx)
    requires Ext(b, f, {}) && !f.failed
    ensures !b.failed
  {
  }

  lemma OpFails(b: Ctx, op: Opcode, x: nat, y: nat, mask: Byte)
    requires var (b1, dst) := NewTemp(b); !EmitRegs(b1, op, dst, x, y, mask).failed
    ensures !b.failed && !NewTemp(b).0.failed
  {
    hide EncodeRegs;
  }

  lemma YieldsSmall(b: Ctx, f: Ctx, os: Ops, base: nat, r: nat)
    requires Yields(b, f, os, base, r)
    ensures Small(f, base) && !f.failed && b.top <= r < f.top
  {
    hide Placed; hide OpsOk; hide Frugal; hide Pristine; hide Shielded; hide Spends;
  }

  // ---- leaves -----------------------------------------------------------

  lemma ListLit(b: Ctx, lay: Layout, v: Val) returns (os: Ops)
    requires Small(b, lay.localsEnd)
    requires var (b1, dst) := NewTemp(b); !LoadValue(b1, lay, dst, v).failed
    ensures var (b1, dst) := NewTemp(b); Yields(b, LoadValue(b1, lay, dst, v), os, lay.localsEnd, dst)
  {
    hide Region; hide Spends; hide LoadValue; hide Uses;
    var (b1, dst) := NewTemp(b);
    PlainValue(b1, lay, dst, v);
    Begin(b, lay.localsEnd, {});
    StepTemps(b, b, [], lay.localsEnd, {}, 1);
    os := StepValue(b, b1, [], lay.localsEnd, {}, lay, dst, v);
    NotSpent([], os, dst);
    if OneLiteral([], os) { } else { PristineNever(os, dst); }
  }

  lemma RegBelow(lay: Layout, x: Sym)
    requires WfLayout(lay)
    ensures RegOf(lay, x) <= lay.localsEnd
  {
  }

  lemma ListLocal(b: Ctx, lay: Layout, x: Sym) returns (os: Ops)
    requires WfLayout(lay) && Small(b, lay.localsEnd) && !NewTemp(b).0.failed
    ensures var (b1, dst) := NewTemp(b); Yields(b, MoveReg(b1, dst, RegOf(lay, x)), os, lay.localsEnd, dst)
  {
    hide Region; hide Spends; hide MoveReg; hide Uses; hide RegOf;
    var (b1, dst) := NewTemp(b);
    Begin(b, lay.localsEnd, {});
    StepTemps(b, b, [], lay.localsEnd, {}, 1);
    RegBelow(lay, x);
    FreeOuter(b, b1, [], lay.localsEnd, {}, RegOf(lay, x));
    StepMove(b, b1, [], lay.localsEnd, {}, dst, RegOf(lay, x));
    MoveShape(b1, dst, RegOf(lay, x));
    os := [] + [Reg(MOVE, dst, RegOf(lay, x), 0, 3)];
    NotSpent([], os, dst);
    PristineNever(os, dst);
  }

  lemma ListUnary(b: Ctx, b1: Ctx, os: Ops, base: nat, op: Opcode, v: nat) returns (os': Ops)
    requires Yields(b, b1, os, base, v) && UnaryOp(op) && !NewTemp(b1).0.failed
    ensures var (b2, dst) := NewTemp(b1); Yields(b, EmitRegs(b2, op, dst, v, 0, 3), os', base, dst)
  {
    hide Region; hide Spends; hide EmitRegs; hide Uses; hide Pristine; hide Writes; hide Shielded; hide Adds;
    var (b2, dst) := NewTemp(b1);
    StepTemps(b, b1, os, base, {}, 1);
    RegShape(op, dst, v, 0, 3);
    FreeTemp(b, b2, os, base, {}, v);
    ReachFits(b, b2, os, base, {}, dst);
    ReachFits(b, b2, os, base, {}, v);
    os' := os + [Reg(op, dst, v, 0, 3)];
    StepReg(b, b2, os, base, {}, op, dst, v, 0, 3);
    RegsShape(b2, op, dst, v, 0, 3);
    NotSpent(os, os', dst);
    AddsShielded(os, os');
    PristineLoud(os', dst, |os|);
  }

  lemma AddsShielded(os: Ops, os': Ops)
    requires Adds(os, os') && Shielded(os)
    ensures Shielded(os')
  {
    hide Shielded;
  }

  // The last operator of a binary expression, arithmetic or not.
  lemma ListBinary(b: Ctx, b1: Ctx, b2: Ctx, left: Ops, right: Ops, base: nat, op: Opcode, l: nat, r: nat)
    returns (os: Ops)
    requires Yields(b, b1, left, base, l) && Yields(b1, b2, right, base, r) && BinaryOp(op) && !NewTemp(b2).0.failed
    ensures var (b3, dst) := NewTemp(b2); Yields(b, EmitReg3(b3, op, dst, l, r), os, base, dst)
  {
    hide Region; hide Uses;

    var (b3, dst) := NewTemp(b2);
    var both := left + right;
    StepSub(b, b1, b2, left, right, base, {}, {});
    StepTemps(b, b2, both, base, {}, 1);
    RegShape(op, dst, l, r, 7) by { OpLowered(op); }
    ReachFits(b, b3, both, base, {}, dst);
    ReachFits(b, b3, both, base, {}, l);
    ReachFits(b, b3, both, base, {}, r);
    OperandsKept(b, b1, b2, left, right, base, l, r);
    var o := Reg(op, dst, l, r, 7);
    os := both + [o];
    RegsShape(b3, op, dst, l, r, 7);
    OpLowered(op);
    if IsFoldable(op) {
      FoldFrugal(b, b1, b2, left, right, o, base) by { RegionFrugal(b, b2, both, base, {}); }
      assert Region(b, EmitReg3(b3, o.op, o.x, o.y, o.z), both + [o], base, {}) by {
        OpLowered(o.op);
        RegShape(o.op, o.x, o.y, o.z, 7);
        RegionBounds(b, b3, both, base, {});
        assert OpOk(o, ScopeOf(b, b3, base, {}), |b3.consts|);
        StepAny(b, b3, EmitReg3(b3, o.op, o.x, o.y, o.z), both, o, base, {});
      }
      assert Pristine(both + [o], o.x) && Shielded(both + [o]) && !Spends(both + [o], o.x) by {
        var all := both + [o];
        MadeBelow(b, b2, both, base, {}, o.x);
        SpendsCat(both, [o]);
        forall i: nat | Last(all, o.x, i) ensures Unread(all, o.x) && forall k :: i < k < |all| ==> !all[k].Mark? {
          if i < |both| { MadeAt(both, o.x, i); }
          assert i == |both|;
          forall k | 0 <= k < |all| ensures o.x !in Uses(all[k]) {
            if k < |both| { RegionReads(b, b2, both, base, {}, k); }
          }
        }
        ShieldedCat(both, [o]);
      }
    } else {
      FreeTemp(b, b3, both, base, {}, l);
      FreeTemp(b, b3, both, base, {}, r);
      StepReg(b, b3, both, base, {}, op, dst, l, r, 7);
      NotSpent(both, os, dst);
      AddsShielded(both, os);
      PristineLoud(os, dst, |both|);
    }
  }

  lemma OpLowered(op: Opcode)
    requires BinaryOp(op)
    ensures Lowered(op) && op != LOAD_CONST && op != LOAD_INT && op != ITERATOR_CLOSE && op != MOVE
            && op != GET_ITERATOR && op != ITERATOR_NEXT && !UnaryOp(op)
    ensures op != LOOP_HEADER && op != RETURN && op != THROW && op != CALL
  {
  }

  lemma RegionFrugal(b: Ctx, f: Ctx, os: Ops, base: nat, ins: set<nat>)
    requires Region(b, f, os, base, ins)
    ensures Frugal(os)
  {
    hide Placed; hide OpsOk; hide Frugal;
  }

  // Both operands are still unspent behind the second one.
  lemma OperandsKept(b: Ctx, m: Ctx, f: Ctx, left: Ops, right: Ops, base: nat, l: nat, r: nat)
    requires Yields(b, m, left, base, l) && Yields(m, f, right, base, r)
    ensures !Spends(left + right, l) && !Spends(left + right, r) && b.top <= l < m.top <= r < f.top
  {
    hide Spends; hide Pristine; hide Shielded; hide Region;
    SpendsCat(left, right);
    if Spends(right, l) { SpendsOwn(m, f, right, base, {}, l); }
    if Spends(left, r) { SpendsOwn(b, m, left, base, {}, r); }
  }

  lemma RegionReads(b: Ctx, f: Ctx, os: Ops, base: nat, ins: set<nat>, k: nat)
    requires Region(b, f, os, base, ins) && k < |os|
    ensures forall r :: r in Uses(os[k]) ==> r < f.top
  {
    hide Uses; hide Placed; hide Frugal; hide OpsOk;
    ReadsOk(os, ScopeOf(b, f, base, ins), |f.consts|, k);
  }

  lemma PristineRight(b: Ctx, m: Ctx, f: Ctx, left: Ops, right: Ops, base: nat, r: nat)
    requires Region(b, m, left, base, {}) && Pristine(right, r) && m.top <= r
    ensures Pristine(left + right, r)
  {
    hide Region; hide Quiet; hide Uses; hide Pristine; hide NeverMade;
    var all := left + right;
    var n := |left|;
    MadeBelow(b, m, left, base, {}, r);
    forall i: nat | Last(all, r, i) ensures Unread(all, r) && forall k :: i < k < |all| ==> !all[k].Mark? {
      if i < n { MadeAt(left, r, i); }
      assert Last(right, r, i - n) by {
        assert all[i] == right[i - n];
        forall k | i - n <= k < |right| ensures Quiet(right[k]) { assert right[k] == all[k + n]; }
      }
      PristineAt(right, r, i - n);
      forall k | 0 <= k < |all| ensures r !in Uses(all[k]) {
        if k < n { RegionReads(b, m, left, base, {}, k); } else { assert all[k] == right[k - n]; }
      }
      forall k | i < k < |all| ensures !all[k].Mark? { assert all[k] == right[k - n]; }
    }
    PristineIs(all, r);
  }

  lemma PristineIs(os: Ops, r: nat)
    requires forall i: nat :: Last(os, r, i) ==> Unread(os, r) && forall k :: i < k < |os| ==> !os[k].Mark?
    ensures Pristine(os, r)
  {
    hide Last; hide Unread;
  }

  lemma ListAssign(b: Ctx, b1: Ctx, os: Ops, lay: Layout, x: Sym, r: nat) returns (os': Ops)
    requires Yields(b, b1, os, lay.localsEnd, r) && WfLayout(lay)
    ensures Yields(b, if RegOf(lay, x) != r then MoveReg(b1, RegOf(lay, x), r) else b1, os', lay.localsEnd, r)
  {
    hide Region; hide Spends; hide MoveReg; hide Uses; hide RegOf; hide Pristine; hide Shielded; hide Adds;
    os' := os;
    if RegOf(lay, x) != r {
      RegBelow(lay, x);
      FreeTemp(b, b1, os, lay.localsEnd, {}, r);
      StepMove(b, b1, os, lay.localsEnd, {}, RegOf(lay, x), r);
      MoveShape(b1, RegOf(lay, x), r);
      os' := os + [Reg(MOVE, RegOf(lay, x), r, 0, 3)];
      NotSpent(os, os', r);
      AddsShielded(os, os');
      PristineLoud(os', r, |os|);
    }
  }

  // ---- expressions inside a stretch -------------------------------------

  // os' extends os, spending only registers from top on.
  ghost predicate Widens(os: Ops, os': Ops, top: nat) {
    && (forall r: nat :: Spends(os', r) ==> Spends(os, r) || r >= top)
    && (Shielded(os) ==> Shielded(os')) && (Loud(os) ==> Loud(os'))
  }

  lemma WidensAdds(os: Ops, os': Ops, top: nat)
    requires Adds(os, os')
    ensures Widens(os, os', top)
  {
    hide Spends; hide Shielded; hide LoudBefore;
  }

  lemma WidensTrans(a: Ops, b: Ops, c: Ops, top: nat, top': nat)
    requires Widens(a, b, top) && Widens(b, c, top') && top <= top'
    ensures Widens(a, c, top)
  {
    hide Spends; hide Shielded; hide LoudBefore;
  }

  // One more instruction behind an extension.
  lemma WidensThen(a: Ops, b: Ops, c: Ops, top: nat)
    requires Widens(a, b, top) && Adds(b, c)
    ensures Widens(a, c, top)
  {
    hide Spends; hide Shielded; hide LoudBefore;
  }

  lemma Unspent(os: Ops, os': Ops, top: nat, r: nat)
    requires Widens(os, os', top) && !Spends(os, r) && r < top
    ensures !Spends(os', r)
  {
    hide Spends; hide Shielded; hide LoudBefore;
  }

  lemma {:induction false} StepExpr(b: Ctx, cx: Ctx, os: Ops, ins: set<nat>, lay: Layout, e: Expr) returns (os': Ops)
    requires WfLayout(lay) && WfExpr(lay, e) && Region(b, cx, os, lay.localsEnd, ins) && !CompExpr(cx, lay, e).0.failed
    ensures var (f, r) := CompExpr(cx, lay, e);
            && Region(b, f, os', lay.localsEnd, ins) && Widens(os, os', cx.top)
            && cx.top <= r < f.top && b.top <= r && !Spends(os', r)
    decreases e, 2
  {
    hide Spends; hide Shielded; hide LoudBefore; hide Pristine; hide WfLayout; hide CompExpr; hide Region;
    var (f, r) := CompExpr(cx, lay, e);
    RegionSmall(b, cx, os, lay.localsEnd, ins);
    var more := ListExpr(cx, lay, e);
    YieldsSmall(cx, f, more, lay.localsEnd, r);
    StepSub(b, cx, f, os, more, lay.localsEnd, ins, {});
    os' := os + more;
    forall x: nat | Spends(os', x) ensures Spends(os, x) || x >= cx.top {
      if Spends(more, x) { SpendsOwn(cx, f, more, lay.localsEnd, {}, x); }
    }
    if Spends(os, r) { SpendsOwn(b, cx, os, lay.localsEnd, ins, r); }
  }

  lemma RegionSmall(b: Ctx, f: Ctx, os: Ops, base: nat, ins: set<nat>)
    requires Region(b, f, os, base, ins)
    ensures Small(b, base) && Small(f, base) && b.top <= f.top && forall r :: r in ins ==> r < b.top
  {
    hide Placed; hide OpsOk; hide Frugal;
  }

  // ---- short circuits and conditions ------------------------------------

  lemma StepGuard(b: Ctx, cx: Ctx, os: Ops, base: nat, ins: set<nat>, lop: Logic, dst: nat, end: nat) returns (os': Ops)
    requires Region(b, cx, os, base, ins) && !CompGuard(cx, lop, dst, end).failed && Free(b, cx, os, base, ins, dst)
    ensures Region(b, CompGuard(cx, lop, dst, end), os', base, ins) && Adds(os, os')
            && cx.top <= CompGuard(cx, lop, dst, end).top
  {
    hide Region; hide Free; hide Adds; hide EmitJump; hide CompNullish; hide Spends;
    match lop
    case Or =>
      StepJump(b, cx, os, base, ins, JUMP_IF_TRUE, dst, end);
      os' := os + [Jump(JUMP_IF_TRUE, dst, end)];
      JumpShape(cx, JUMP_IF_TRUE, dst, end);
    case And =>
      StepJump(b, cx, os, base, ins, JUMP_IF_FALSE, dst, end);
      os' := os + [Jump(JUMP_IF_FALSE, dst, end)];
      JumpShape(cx, JUMP_IF_FALSE, dst, end);
    case Coalesce =>
      var (cx1, t) := CompNullish(cx, dst);
      JumpShape(cx1, JUMP_IF_FALSE, t, end);
      var os1 := StepNullish(b, cx, os, base, ins, dst);
      RegionSmall(b, cx, os, base, ins);
      FreeTemp(b, cx1, os1, base, ins, t);
      StepJump(b, cx1, os1, base, ins, JUMP_IF_FALSE, t, end);
      os' := os1 + [Jump(JUMP_IF_FALSE, t, end)];
      AddsTrans(os, os1, os');
  }

  lemma BindFails(cx: Ctx, l: nat)
    requires !Bind(cx, l).failed
    ensures !cx.failed && Bind(cx, l).top == cx.top
  {
  }

  lemma {:induction false} ListLogic(b: Ctx, lay: Layout, e: Expr) returns (os: Ops)
    requires e.ShortCircuit? && WfLayout(lay) && WfExpr(lay, e) && Small(b, lay.localsEnd)
             && !CompExpr(b, lay, e).0.failed
    ensures Yields(b, CompExpr(b, lay, e).0, os, lay.localsEnd, CompExpr(b, lay, e).1)
    decreases e, 0
  {
    hide MoveReg;
    hide CompGuard; hide Bind;

    var base := lay.localsEnd;
    var (b1, dst) := CompExpr(b, lay, e.l);
    var (b2, end) := NewLabel(b1);
    var b3 := CompGuard(b2, e.lop, dst, end);
    var (b4, r) := CompExpr(b3, lay, e.r);
    var b5 := MoveReg(b4, dst, r);

    BindFails(b5, end);
    MoveShape(b4, dst, r);
    GrowExpr(b3, lay, e.r); FailsOn(b3, b4);
    PlainGuard(b2, e.lop, dst, end);
    var os1 := ListExpr(b, lay, e.l);
    StepLabel(b, b1, os1, base, {});
    FreeTemp(b, b2, os1, base, {}, dst);
    var os2 := StepGuard(b, b2, os1, base, {}, e.lop, dst, end);
    var os3 := StepExpr(b, b3, os2, {}, lay, e.r);
    FreeTemp(b, b4, os3, base, {}, r);
    StepMove(b, b4, os3, base, {}, dst, r);
    var os4 := os3 + [Reg(MOVE, dst, r, 0, 3)];
    os := JoinedResult(b, b5, os1, os2, os3, os4, base, dst, b3.top, end);
  }

  // A branch that meets the other one: the result is moved in place, and a mark follows.
  lemma JoinedResult(b: Ctx, cx: Ctx, os1: Ops, os2: Ops, os3: Ops, os4: Ops, base: nat, dst: nat, top: nat, end: nat)
    returns (os: Ops)
    requires Region(b, cx, os4, base, {}) && !Bind(cx, end).failed
    requires Shielded(os1) && !Spends(os1, dst) && Adds(os1, os2) && Widens(os2, os3, top) && Adds(os3, os4)
             && dst < top && b.top <= dst < cx.top
    requires |os4| > 0 && !Quiet(os4[|os4| - 1])
    ensures Yields(b, Bind(cx, end), os, base, dst)
  {
    hide Region; hide Quiet; hide Spends; hide Shielded; hide Pristine; hide Bind;
    BindFails(cx, end);
    assert Loud(os4);
    hide LoudBefore;
    StepBind(b, cx, os4, base, {}, end);
    os := os4 + [Mark];
    PristineLoud(os, dst, |os4| - 1);
  }

  lemma CondUnfold(b: Ctx, lay: Layout, e: Expr)
    requires e.Cond?
    ensures var (b1, c) := CompExpr(b, lay, e.test);
            var (b2, dst) := NewTemp(b1);
            var (b3, elseL) := NewLabel(b2);
            var (b4, endL) := NewLabel(b3);
            var b5 := EmitJump(b4, JUMP_IF_FALSE, c, elseL);
            var (b6, x) := CompExpr(b5, lay, e.thn);
            var b9 := Bind(EmitGoto(MoveReg(b6, dst, x), endL), elseL);
            var (b10, y) := CompExpr(b9, lay, e.els);
            CompExpr(b, lay, e) == (Bind(MoveReg(b10, dst, y), endL), dst)
  {
    hide MoveReg; hide EmitJump; hide Bind; hide NewTemps;
  }

  lemma {:induction false} ListCond(b: Ctx, lay: Layout, e: Expr) returns (os: Ops)
    requires e.Cond? && WfLayout(lay) && WfExpr(lay, e) && Small(b, lay.localsEnd) && !CompExpr(b, lay, e).0.failed
    ensures Yields(b, CompExpr(b, lay, e).0, os, lay.localsEnd, CompExpr(b, lay, e).1)
    decreases e, 0
  {
    hide CompExpr; hide Region; hide Spends; hide Shielded; hide LoudBefore; hide Pristine; hide WfLayout; hide MoveReg;
    hide EmitJump; hide Bind;
    hide Adds; hide Widens; hide Free; hide NewTemps; hide Ext; hide Small;
    var base := lay.localsEnd;
    var (b1, c) := CompExpr(b, lay, e.test);
    var (b2, dst) := NewTemp(b1);
    var (b3, elseL) := NewLabel(b2);
    var (b4, endL) := NewLabel(b3);
    var b5 := EmitJump(b4, JUMP_IF_FALSE, c, elseL);
    var (b6, x) := CompExpr(b5, lay, e.thn);
    var b8 := EmitGoto(MoveReg(b6, dst, x), endL);
    var b9 := Bind(b8, elseL);
    var (b10, y) := CompExpr(b9, lay, e.els);
    var b11 := MoveReg(b10, dst, y);
    CondUnfold(b, lay, e);
    BindFails(b11, endL);
    MoveShape(b10, dst, y);
    GrowExpr(b9, lay, e.els); FailsOn(b9, b10);
    assert !b1.failed && !NewTemp(b1).0.failed && !b6.failed
      && EmitJump(b4, JUMP_IF_FALSE, c, elseL).top == b1.top + 1 by {
      var b5 := EmitJump(b4, JUMP_IF_FALSE, c, elseL);
      BindFails(EmitGoto(MoveReg(b6, dst, x), endL), elseL);
      JumpShape(MoveReg(b6, dst, x), JUMP, 0, endL);
      MoveShape(b6, dst, x);
      GrowExpr(b5, lay, e.thn); FailsOn(b5, b6);
      JumpShape(b4, JUMP_IF_FALSE, c, elseL);
      PlainTemps(b1, 1);
    }
    var os1 := ListExpr(b, lay, e.test);
    StepTemps(b, b1, os1, base, {}, 1);
    StepLabel(b, b2, os1, base, {});
    StepLabel(b, b3, os1, base, {});
    FreeTemp(b, b4, os1, base, {}, c);
    StepJump(b, b4, os1, base, {}, JUMP_IF_FALSE, c, elseL);
    var os2 := os1 + [Jump(JUMP_IF_FALSE, c, elseL)];
    var os6 := FirstArm(b, b5, os1, os2, lay, e.thn, dst, elseL, endL);
    var os7 := StepExpr(b, b9, os6, {}, lay, e.els);
    FreeTemp(b, b10, os7, base, {}, y);
    StepMove(b, b10, os7, base, {}, dst, y);
    var os8 := os7 + [Reg(MOVE, dst, y, 0, 3)];
    AddsRefl(os6);
    os := JoinedResult(b, b11, os6, os6, os7, os8, base, dst, b9.top, endL);
  }

  // The first arm of a condition, up to the mark of the second.
  lemma {:induction false} FirstArm(b: Ctx, b5: Ctx, os1: Ops, os2: Ops, lay: Layout, e: Expr, dst: nat, elseL: nat,
                                    endL: nat) returns (os6: Ops)
    requires WfLayout(lay) && WfExpr(lay, e) && Region(b, b5, os2, lay.localsEnd, {}) && b.top <= dst < b5.top
    requires var (b6, x) := CompExpr(b5, lay, e); !b6.failed && !Bind(EmitGoto(MoveReg(b6, dst, x), endL), elseL).failed
    requires Shielded(os1) && !Spends(os1, dst) && Adds(os1, os2)
    ensures var (b6, x) := CompExpr(b5, lay, e);
            var f := Bind(EmitGoto(MoveReg(b6, dst, x), endL), elseL);
            Region(b, f, os6, lay.localsEnd, {}) && Shielded(os6) && !Spends(os6, dst) && b5.top <= f.top
    decreases e, 3
  {
    var base := lay.localsEnd;
    var (b6, x) := CompExpr(b5, lay, e);
    var b7 := MoveReg(b6, dst, x);
    var b8 := EmitGoto(b7, endL);
    hide Spends; hide Shielded; hide LoudBefore;

    MoveShape(b6, dst, x);
    JumpShape(b7, JUMP, 0, endL);
    BindFails(b8, elseL);
    var os3 := StepExpr(b, b5, os2, {}, lay, e);
    FreeTemp(b, b6, os3, base, {}, x);
    StepMove(b, b6, os3, base, {}, dst, x);
    var os4 := os3 + [Reg(MOVE, dst, x, 0, 3)];
    StepJump(b, b7, os4, base, {}, JUMP, 0, endL);
    var os5 := os4 + [Jump(JUMP, 0, endL)];
    AddsTrans(os3, os4, os5);
    AddsLoud(os4, os5);
    StepBind(b, b8, os5, base, {}, elseL);
    os6 := os5 + [Mark];
  }

  lemma AddsLoud(os: Ops, os': Ops)
    requires Adds(os, os') && Loud(os)
    ensures Loud(os')
  {
    hide LoudBefore;
  }

  lemma AddsRefl(os: Ops)
    ensures Adds(os, os)
  {
  }

  // ---- chains -----------------------------------------------------------

  // A nullish v leaves the chain.
  lemma StepExit(b: Ctx, cx: Ctx, os: Ops, ins: set<nat>, lay: Layout, v: nat, dst: nat, exit: nat) returns (os': Ops)
    requires Region(b, cx, os, lay.localsEnd, ins) && !CompExit(cx, lay, v, dst, exit).failed
    requires Free(b, cx, os, lay.localsEnd, ins, v) && ScopeOf(b, cx, lay.localsEnd, ins).Has(dst)
    ensures Region(b, CompExit(cx, lay, v, dst, exit), os', lay.localsEnd, ins) && Widens(os, os', cx.top)
    ensures cx.top <= CompExit(cx, lay, v, dst, exit).top
  {
    var base := lay.localsEnd;
    var (b1, t) := CompNullish(cx, v);
    var (b2, keep) := NewLabel(b1);
    var b3 := EmitJump(b2, JUMP_IF_FALSE, t, keep);
    var b4 := LoadUndefined(b3, lay, dst);
    var b5 := EmitGoto(b4, exit);
    hide Spends; hide Shielded; hide LoudBefore;

    BindFails(b5, keep);
    JumpShape(b4, JUMP, 0, exit);
    MoveShape(b3, dst, base);
    JumpShape(b2, JUMP_IF_FALSE, t, keep);
    RegionSmall(b, cx, os, base, ins);
    var os1 := StepNullish(b, cx, os, base, ins, v);
    StepLabel(b, b1, os1, base, ins);
    FreeTemp(b, b2, os1, base, ins, t);
    StepJump(b, b2, os1, base, ins, JUMP_IF_FALSE, t, keep);
    var os2 := os1 + [Jump(JUMP_IF_FALSE, t, keep)];
    FreeOuter(b, b3, os2, base, ins, base);
    StepMove(b, b3, os2, base, ins, dst, base);
    var os3 := os2 + [Reg(MOVE, dst, base, 0, 3)];
    StepJump(b, b4, os3, base, ins, JUMP, 0, exit);
    var os4 := os3 + [Jump(JUMP, 0, exit)];
    AddsLoud(os3, os4);
    StepBind(b, b5, os4, base, ins, keep);
    os' := os4 + [Mark];
    AddsTrans(os, os1, os2); AddsTrans(os, os2, os3); AddsTrans(os, os3, os4);
  }

  // The first link of a chain.
  lemma {:induction false} ListLink(b: Ctx, lay: Layout, links: Links, dst: nat, exit: nat, cur: nat, recv: Option<nat>)
    returns (os: Ops)
    requires !links.End? && WfLayout(lay) && WfLinks(lay, links) && Small(b, lay.localsEnd)
    requires dst < b.top && cur < b.top && (recv.Some? ==> recv.value < b.top)
    requires !FirstLink(b, lay, links, dst, exit, cur, recv).0.failed
    ensures var (f, r) := FirstLink(b, lay, links, dst, exit, cur, recv);
            && Region(b, f, os, lay.localsEnd, Handed(dst, cur, recv)) && Widens([], os, b.top)
            && b.top <= r < f.top && !Spends(os, r)
    decreases links, 3
  {
    var base := lay.localsEnd;
    var ins := Handed(dst, cur, recv);
    Begin(b, base, ins);
    var b1 := if links.optional then CompExit(b, lay, cur, dst, exit) else b;
    var (b2, nxt) := FirstLink(b, lay, links, dst, exit, cur, recv);
    hide Region; hide Spends; hide Shielded; hide LoudBefore; hide Adds; hide Widens; hide Free; hide CompExit;
    hide CompMember; hide CompInvoke; hide Small; hide WfLayout;
    if links.Member? { GrowMember(b1, lay, links.key, cur); } else { GrowInvoke(b1, lay, links.args, cur, recv); }
    FailsOn(b1, b2);
    FreeOuter(b, b, [], base, ins, cur);
    os := [];
    WidensRefl([], b.top);
    if links.optional { os := StepExit(b, b, [], ins, lay, cur, dst, exit); }
    var os1 := os;
    RegionSmall(b, b1, os1, base, ins);
    FreeOuter(b, b1, os1, base, ins, cur);
    if links.Member? {
      os := StepMember(b, b1, os1, ins, lay, links.key, cur);
    } else {
      if recv.Some? { FreeOuter(b, b1, os1, base, ins, recv.value); }
      os := StepInvoke(b, b1, os1, ins, lay, links.args, cur, recv);
    }
    WidensTrans([], os1, os, b.top, b1.top);
  }

  function FirstLink(b: Ctx, lay: Layout, links: Links, dst: nat, exit: nat, cur: nat, recv: Option<nat>): (Ctx, nat)
    requires !links.End?
  {
    var b1 := if links.optional then CompExit(b, lay, cur, dst, exit) else b;
    if links.Member? then CompMember(b1, lay, links.key, cur) else CompInvoke(b1, lay, links.args, cur, recv)
  }

  lemma {:induction false} ListLinks(b: Ctx, lay: Layout, links: Links, dst: nat, exit: nat, cur: nat,
                                     recv: Option<nat>) returns (os: Ops)
    requires WfLayout(lay) && WfLinks(lay, links) && Small(b, lay.localsEnd) && dst < b.top && cur < b.top
             && (recv.Some? ==> recv.value < b.top)
    requires !CompLinks(b, lay, links, dst, exit, cur, recv).0.failed
    ensures var (f, r) := CompLinks(b, lay, links, dst, exit, cur, recv);
            && Region(b, f, os, lay.localsEnd, Handed(dst, cur, recv)) && Shielded(os)
            && (r == cur || (b.top <= r < f.top && !Spends(os, r)))
    decreases links, 4
  {
    var base := lay.localsEnd;
    if links.End? {
      Begin(b, base, Handed(dst, cur, recv));
      os := [];
      return;
    }
    hide Region; hide Spends; hide Shielded; hide Widens; hide CompLinks; hide FirstLink; hide Small; hide WfLayout;

    var (b2, nxt) := FirstLink(b, lay, links, dst, exit, cur, recv);
    var recv' := if links.Member? then Some(cur) else None;
    var (f, r) := CompLinks(b2, lay, links.rest, dst, exit, nxt, recv');
    GrowLinks(b2, lay, links.rest, dst, exit, nxt, recv'); FailsOn(b2, f);
    var os2 := ListLink(b, lay, links, dst, exit, cur, recv);
    RegionSmall(b, b2, os2, base, Handed(dst, cur, recv));
    var more := ListLinks(b2, lay, links.rest, dst, exit, nxt, recv');
    os := LinksJoin(b, b2, f, os2, more, base, dst, cur, recv, nxt, recv', r);
  }

  // The registers the links of a chain are handed.
  function Handed(dst: nat, cur: nat, recv: Option<nat>): set<nat> {
    {dst, cur} + if recv.Some? then {recv.value} else {}
  }

  lemma LinksJoin(b: Ctx, m: Ctx, f: Ctx, os: Ops, more: Ops, base: nat, dst: nat, cur: nat, recv: Option<nat>,
                  nxt: nat, recv': Option<nat>, r: nat)
    returns (all: Ops)
    requires Region(b, m, os, base, Handed(dst, cur, recv)) && Region(m, f, more, base, Handed(dst, nxt, recv'))
    requires recv' == None || recv' == Some(cur)
    requires Widens([], os, b.top) && Shielded(more) && b.top <= nxt < m.top && !Spends(os, nxt)
    requires r == nxt || (m.top <= r < f.top && !Spends(more, r))
    ensures Region(b, f, all, base, Handed(dst, cur, recv)) && Shielded(all) && b.top <= r < f.top && !Spends(all, r)
  {
    hide Region; hide Spends;
    var ins := Handed(dst, cur, recv);
    assert Shielded([]);
    hide Shielded;
    RegionSmall(b, m, os, base, ins);
    RegionSmall(m, f, more, base, Handed(dst, nxt, recv'));
    if Spends(os, dst) { SpendsOwn(b, m, os, base, ins, dst); }
    if Spends(os, cur) { SpendsOwn(b, m, os, base, ins, cur); }
    StepSub(b, m, f, os, more, base, ins, Handed(dst, nxt, recv'));
    all := os + more;
    if Spends(os, r) { SpendsOwn(b, m, os, base, ins, r); }
    if Spends(more, r) { SpendsOwn(m, f, more, base, Handed(dst, nxt, recv'), r); }
  }

  lemma WidensRefl(os: Ops, top: nat)
    ensures Widens(os, os, top)
  {
  }

  lemma {:induction false} StepMember(b: Ctx, cx: Ctx, os: Ops, ins: set<nat>, lay: Layout, key: Key, cur: nat)
    returns (os': Ops)
    requires WfLayout(lay) && (key.Computed? ==> WfExpr(lay, key.e)) && Region(b, cx, os, lay.localsEnd, ins)
    requires !CompMember(cx, lay, key, cur).0.failed && Free(b, cx, os, lay.localsEnd, ins, cur) && cur < cx.top
    ensures var (f, r) := CompMember(cx, lay, key, cur);
            && Region(b, f, os', lay.localsEnd, ins) && Widens(os, os', cx.top) && b.top <= r && cx.top <= r < f.top
            && !Spends(os', r)
    decreases key, 4
  {
    var base := lay.localsEnd;
    var (b1, k) := CompKey(cx, lay, key);
    var (b2, nxt) := NewTemp(b1);
    hide Region; hide Spends; hide Shielded; hide LoudBefore; hide Adds; hide Widens; hide CompKey; hide NewTemps;
    hide WfLayout; hide EmitRegs; hide Uses; hide Writes; hide Free;
    OpFails(b1, GET_PROPERTY, cur, k, 7);
    RegionSmall(b, cx, os, base, ins);
    var os1 := StepKey(b, cx, os, ins, lay, key);
    StepTemps(b, b1, os1, base, ins, 1);
    RegShape(GET_PROPERTY, nxt, cur, k, 7);
    FreeTemp(b, b2, os1, base, ins, k);
    FreeKept(b, cx, b2, os, os1, base, ins, cur);
    ReachFits(b, b2, os1, base, ins, nxt);
    ReachFits(b, b2, os1, base, ins, k);
    FreeReach(b, b2, os1, base, ins, cur);
    ReachFits(b, b2, os1, base, ins, cur);
    os' := os1 + [Reg(GET_PROPERTY, nxt, cur, k, 7)];
    StepReg(b, b2, os1, base, ins, GET_PROPERTY, nxt, cur, k, 7);
    RegsShape(b2, GET_PROPERTY, nxt, cur, k, 7);
    NotSpent(os1, os', nxt);
    WidensThen(os, os1, os', cx.top);
  }

  // What was free stays free, as long as it is older than what was spent since.
  lemma FreeKept(b: Ctx, cx: Ctx, f: Ctx, os: Ops, os': Ops, base: nat, ins: set<nat>, r: nat)
    requires Free(b, cx, os, base, ins, r) && Widens(os, os', cx.top) && cx.top <= f.top && r < cx.top
    ensures Free(b, f, os', base, ins, r)
  {
    hide Spends; hide Shielded; hide LoudBefore;
  }

  lemma {:induction false} StepKey(b: Ctx, cx: Ctx, os: Ops, ins: set<nat>, lay: Layout, key: Key) returns (os': Ops)
    requires WfLayout(lay) && (key.Computed? ==> WfExpr(lay, key.e)) && Region(b, cx, os, lay.localsEnd, ins)
             && !CompKey(cx, lay, key).0.failed
    ensures var (f, r) := CompKey(cx, lay, key);
            && Region(b, f, os', lay.localsEnd, ins) && Widens(os, os', cx.top) && cx.top <= r < f.top && b.top <= r
            && !Spends(os', r)
    decreases key, 3
  {
    hide Region; hide Spends; hide Shielded; hide LoudBefore; hide Adds; hide Widens; hide NewTemps; hide WfLayout;
    hide LoadConst;
    RegionSmall(b, cx, os, lay.localsEnd, ins);
    match key
    case Static(name) =>
      var (b1, r) := NewTemp(cx);
      PlainConst(b1, r, Str(name));
      StepTemps(b, cx, os, lay.localsEnd, ins, 1);
      os' := StepConst(b, b1, os, lay.localsEnd, ins, r, Str(name));
      NotSpent(os, os', r);
      WidensAdds(os, os', cx.top);
    case Computed(e) => os' := StepExpr(b, cx, os, ins, lay, e);
  }

  // The window of a call, with the callee and the receiver in place.
  lemma StepWindow(b: Ctx, cx: Ctx, os: Ops, base: nat, ins: set<nat>, n: nat, cur: nat, src: nat) returns (os': Ops)
    requires Region(b, cx, os, base, ins) && n >= 2 && !NewTemps(cx, n).0.failed
    requires Free(b, cx, os, base, ins, cur) && cur < cx.top && Free(b, cx, os, base, ins, src) && src < cx.top
    ensures var f := WindowAt(cx, n, cur, src);
            Region(b, f, os', base, ins) && Adds(os, os') && NewTemps(cx, n).1 == cx.top && f.top == cx.top + n
    ensures forall r: nat :: cx.top <= r ==> !Spends(os', r)
  {
    hide Region; hide Spends; hide Adds; hide NewTemps; hide MoveReg; hide Free; hide Shielded; hide LoudBefore;
    var (b1, w) := NewTemps(cx, n);
    var b2 := MoveReg(b1, w, cur);
    MoveShape(b1, w, cur);
    MoveShape(b2, w + 1, src);
    StepTemps(b, cx, os, base, ins, n);
    WidensRefl(os, cx.top);
    RegionSmall(b, cx, os, base, ins);
    FreeKept(b, cx, b1, os, os, base, ins, cur);
    StepMove(b, b1, os, base, ins, w, cur);
    var os1 := os + [Reg(MOVE, w, cur, 0, 3)];
    WidensAdds(os, os1, cx.top);
    FreeKept(b, cx, b2, os, os1, base, ins, src);
    StepMove(b, b2, os1, base, ins, w + 1, src);
    os' := os1 + [Reg(MOVE, w + 1, src, 0, 3)];
    AddsTrans(os, os1, os');
    forall r: nat | cx.top <= r ensures !Spends(os', r) {
      if Spends(os, r) { SpendsOwn(b, cx, os, base, ins, r); }
      NotSpent(os, os', r);
    }
  }

  // A call, with its pieces named.
  function WindowAt(cx: Ctx, n: nat, cur: nat, src: nat): Ctx {
    var (b1, w) := NewTemps(cx, n);
    MoveReg(MoveReg(b1, w, cur), w + 1, src)
  }

  lemma WindowFails(cx: Ctx, n: nat, cur: nat, src: nat)
    requires !WindowAt(cx, n, cur, src).failed
    ensures !NewTemps(cx, n).0.failed
  {
    hide NewTemps; hide MoveReg;
    var (b1, w) := NewTemps(cx, n);
    MoveShape(MoveReg(b1, w, cur), w + 1, src);
    MoveShape(b1, w, cur);
  }

  lemma {:induction false} StepInvoke(b: Ctx, cx: Ctx, os: Ops, ins: set<nat>, lay: Layout, args: Args, cur: nat,
                                      recv: Option<nat>) returns (os': Ops)
    requires WfLayout(lay) && WfArgs(lay, args) && Region(b, cx, os, lay.localsEnd, ins)
             && !CompInvoke(cx, lay, args, cur, recv).0.failed
    requires Free(b, cx, os, lay.localsEnd, ins, cur) && cur < cx.top
    requires recv.Some? ==> Free(b, cx, os, lay.localsEnd, ins, recv.value) && recv.value < cx.top
    ensures var (f, r) := CompInvoke(cx, lay, args, cur, recv);
            && Region(b, f, os', lay.localsEnd, ins) && Widens(os, os', cx.top) && b.top <= r && cx.top <= r < f.top
            && !Spends(os', r)
    decreases args, 4
  {
    hide Region; hide Spends; hide Shielded; hide LoudBefore; hide Adds; hide Widens; hide CompArgs; hide NewTemps;
    hide WfLayout; hide Free; hide EmitCall; hide Argc; hide CompInvoke; hide WindowAt; hide WfArgs;
    var base := lay.localsEnd;
    var n := CALL_HEADER_REGS + Argc(args);
    var w := NewTemps(cx, n).1;
    var src := if recv.Some? then recv.value else base;
    var b3 := WindowAt(cx, n, cur, src);
    var b4 := CompArgs(b3, lay, args, w + 2);
    InvokeUnfold(cx, lay, args, cur, recv);
    PlainCall(b4, w, w, Argc(args));
    GrowArgs(b3, lay, args, w + 2); FailsOn(b3, b4);
    WindowFails(cx, n, cur, src);
    RegionSmall(b, cx, os, base, ins);
    if recv.None? { FreeOuter(b, cx, os, base, ins, src); }
    var os2 := StepWindow(b, cx, os, base, ins, n, cur, src);
    var os3 := StepArgs(b, b3, os2, ins, lay, args, w + 2);
    RegionSmall(b, b4, os3, base, ins);
    forall r: nat | w <= r < w + n ensures !Spends(os3, r) { Unspent(os2, os3, b3.top, r); }
    os' := StepCall(b, b4, os3, base, ins, w, Argc(args));
    NotSpent(os3, os', w);
    WidensAdds(os, os2, cx.top);
    WidensTrans(os, os2, os3, cx.top, b3.top);
    WidensThen(os, os3, os', cx.top);
  }

  lemma InvokeUnfold(cx: Ctx, lay: Layout, args: Args, cur: nat, recv: Option<nat>)
    ensures var w := NewTemps(cx, CALL_HEADER_REGS + Argc(args)).1;
            var b3 :=
              WindowAt(cx, CALL_HEADER_REGS + Argc(args), cur, if recv.Some? then recv.value else lay.localsEnd);
            CompInvoke(cx, lay, args, cur, recv) == (EmitCall(CompArgs(b3, lay, args, w + 2), w, w, Argc(args)), w)
  {
    hide NewTemps; hide MoveReg; hide CompArgs; hide EmitCall;
  }

  // One argument, moved to its slot.
  function ArgAt(cx: Ctx, lay: Layout, e: Expr, slot: nat): Ctx {
    var (b1, r) := CompExpr(cx, lay, e);
    if r != slot then MoveReg(b1, slot, r) else b1
  }

  lemma {:induction false} StepArg(b: Ctx, cx: Ctx, os: Ops, ins: set<nat>, lay: Layout, e: Expr, slot: nat)
    returns (os': Ops)
    requires WfLayout(lay) && WfExpr(lay, e) && Region(b, cx, os, lay.localsEnd, ins) && !ArgAt(cx, lay, e, slot).failed
    requires b.top <= slot < cx.top
    ensures var f := ArgAt(cx, lay, e, slot);
            Region(b, f, os', lay.localsEnd, ins) && Widens(os, os', cx.top) && cx.top <= f.top
    decreases e, 3
  {
    var base := lay.localsEnd;
    var (b1, r) := CompExpr(cx, lay, e);
    hide Region; hide Spends; hide Shielded; hide LoudBefore; hide Adds; hide Widens; hide WfLayout; hide MoveReg;
    hide Free; hide CompExpr;
    MoveShape(b1, slot, r);
    RegionSmall(b, cx, os, base, ins);
    os' := StepExpr(b, cx, os, ins, lay, e);
    if r != slot {
      var os1 := os';
      FreeTemp(b, b1, os1, base, ins, r);
      StepMove(b, b1, os1, base, ins, slot, r);
      os' := os1 + [Reg(MOVE, slot, r, 0, 3)];
      WidensThen(os, os1, os', cx.top);
    }
  }

  lemma {:induction false} StepArgs(b: Ctx, cx: Ctx, os: Ops, ins: set<nat>, lay: Layout, args: Args, slot: nat)
    returns (os': Ops)
    requires WfLayout(lay) && WfArgs(lay, args) && Region(b, cx, os, lay.localsEnd, ins)
             && !CompArgs(cx, lay, args, slot).failed
    requires b.top <= slot && slot + Argc(args) <= cx.top
    ensures Region(b, CompArgs(cx, lay, args, slot), os', lay.localsEnd, ins) && Widens(os, os', cx.top)
            && cx.top <= CompArgs(cx, lay, args, slot).top
    decreases args, 3
  {
    hide CompExpr;
    os' := os;
    WidensRefl(os, cx.top);

    if args.NoArgs? { return; }
    var b2 := ArgAt(cx, lay, args.e, slot);
    var f := CompArgs(b2, lay, args.rest, slot + 1);
    GrowArgs(b2, lay, args.rest, slot + 1); FailsOn(b2, f);
    var os2 := StepArg(b, cx, os, ins, lay, args.e, slot);
    os' := StepArgs(b, b2, os2, ins, lay, args.rest, slot + 1);
    WidensTrans(os, os2, os', cx.top, b2.top);
  }

  lemma {:induction false} ListChain(b: Ctx, lay: Layout, e: Expr) returns (os: Ops)
    requires e.Chain? && WfLayout(lay) && WfExpr(lay, e) && Small(b, lay.localsEnd) && !CompExpr(b, lay, e).0.failed
    ensures Yields(b, CompExpr(b, lay, e).0, os, lay.localsEnd, CompExpr(b, lay, e).1)
    decreases e, 0
  {
    var base := lay.localsEnd;
    var (b1, exit) := NewLabel(b);
    var (b2, dst) := NewTemp(b1);
    var (b3, cur) := CompExpr(b2, lay, e.base);
    var (b4, last) := CompLinks(b3, lay, e.links, dst, exit, cur, None);
    var b5 := MoveReg(b4, dst, last);
    var f := Bind(b5, exit);
    assert CompExpr(b, lay, e) == (f, dst);
    hide CompExpr; hide Region; hide Spends; hide Shielded; hide LoudBefore; hide Pristine; hide WfLayout; hide MoveReg;
    hide CompLinks; hide Bind; hide Adds; hide Widens; hide Free; hide NewTemps;
    BindFails(b5, exit);
    MoveShape(b4, dst, last);
    GrowLinks(b3, lay, e.links, dst, exit, cur, None); FailsOn(b3, b4);
    GrowExpr(b2, lay, e.base); FailsOn(b2, b3);
    Begin(b, base, {});
    StepLabel(b, b, [], base, {});
    StepTemps(b, b1, [], base, {}, 1);
    var os1 := StepExpr(b, b2, [], {}, lay, e.base);
    RegionSmall(b, b3, os1, base, {});
    var more := ListLinks(b3, lay, e.links, dst, exit, cur, None);
    Unspent([], os1, b2.top, dst);
    os := ChainEnd(b, b3, b4, os1, more, base, dst, cur, last, b2.top, exit);
  }

  // Links and the final move of a chain.
  lemma ChainEnd(b: Ctx, m: Ctx, cx: Ctx, os: Ops, more: Ops, base: nat, dst: nat, cur: nat, last: nat, top: nat,
                 exit: nat) returns (all: Ops)
    requires Region(b, m, os, base, {}) && Region(m, cx, more, base, Handed(dst, cur, None))
             && !Bind(MoveReg(cx, dst, last), exit).failed
    requires Widens([], os, top) && !Spends(os, dst) && b.top <= dst < top <= m.top && Shielded(more)
    requires b.top <= cur < m.top && !Spends(os, cur)
             && (last == cur || (m.top <= last < cx.top && !Spends(more, last)))
    ensures Yields(b, Bind(MoveReg(cx, dst, last), exit), all, base, dst)
  {
    assert Shielded([]);
    hide Region; hide Spends; hide Shielded; hide LoudBefore; hide Pristine; hide MoveReg; hide Bind; hide Adds;
    hide Free;
    var ins := Handed(dst, cur, None);
    MoveShape(cx, dst, last);
    RegionSmall(m, cx, more, base, ins);
    StepSub(b, m, cx, os, more, base, {}, ins);
    var os2 := os + more;
    if Spends(more, dst) { SpendsOwn(m, cx, more, base, ins, dst); }
    if Spends(more, cur) { SpendsOwn(m, cx, more, base, ins, cur); }
    if Spends(os, last) { SpendsOwn(b, m, os, base, {}, last); }
    FreeTemp(b, cx, os2, base, {}, last);
    StepMove(b, cx, os2, base, {}, dst, last);
    var os3 := os2 + [Reg(MOVE, dst, last, 0, 3)];
    AddsRefl(os2);
    WidensRefl(os2, cx.top);
    all := JoinedResult(b, MoveReg(cx, dst, last), os2, os2, os2, os3, base, dst, cx.top, exit);
  }
}
