/**
 The listing of every statement, and of a whole unit.
 */
module ListedStmts {
  import opened Words
  import opened Machine
  import opened Assembly
  import opened Source
  import opened Lowering
  import opened Growth
  import opened Steps
  import opened ExprCorrect
  import opened StmtFrame
  import opened Listing
  import opened ListingSteps
  import opened ListedExprs

  // ---- iterators of the enclosing loops ---------------------------------

  // The iterator and guard registers of a loop stack.
  function IterRegs(ls: seq<LoopCtx>): set<nat> {
    if ls == [] then {} else IterRegs(ls[..|ls| - 1]) + IterOf(ls[|ls| - 1])
  }

  function IterOf(lc: LoopCtx): set<nat> {
    if lc.iter.Some? then {lc.iter.value.0, lc.iter.value.1} else {}
  }

  lemma IterSnoc(ls: seq<LoopCtx>, lc: LoopCtx)
    ensures IterRegs(ls + [lc]) == IterRegs(ls) + IterOf(lc)
  {
    assert (ls + [lc])[..|ls|] == ls;
  }

  lemma {:induction false} IterTail(ls: seq<LoopCtx>, i: nat)
    requires i <= |ls|
    ensures IterRegs(ls[i..]) <= IterRegs(ls)
    decreases |ls|
  {
    if i == |ls| {
      assert ls[i..] == [];
    } else {
      var n := |ls| - 1;
      IterTail(ls[..n], i);
      assert ls[i..] == ls[..n][i..] + [ls[n]] && ls == ls[..n] + [ls[n]];
      IterSnoc(ls[..n][i..], ls[n]);
      IterSnoc(ls[..n], ls[n]);
    }
  }

  // ---- stretches of statements ------------------------------------------

  // os' spends, beyond os, registers from top on only.
  ghost predicate Spreads(os: Ops, os': Ops, top: nat) {
    forall r: nat :: Spends(os', r) ==> Spends(os, r) || r >= top
  }

  lemma SpreadsTrans(a: Ops, b: Ops, c: Ops, top: nat, top': nat)
    requires Spreads(a, b, top) && Spreads(b, c, top') && top <= top'
    ensures Spreads(a, c, top)
  {
    hide Spends;
  }

  lemma SpreadsAdds(a: Ops, b: Ops, c: Ops, top: nat)
    requires Spreads(a, b, top) && Adds(b, c)
    ensures Spreads(a, c, top)
  {
    hide Spends; hide Shielded; hide LoudBefore;
  }

  lemma SpreadsWidens(a: Ops, b: Ops, c: Ops, top: nat, top': nat)
    requires Spreads(a, b, top) && Widens(b, c, top') && top <= top'
    ensures Spreads(a, c, top)
  {
    hide Spends; hide Shielded; hide LoudBefore;
  }

  lemma SpreadsRefl(os: Ops, top: nat)
    ensures Spreads(os, os, top)
  {
  }

  // The registers of the enclosing loops are within reach and never spent.
  ghost predicate Carried(b: Ctx, cx: Ctx, os: Ops, ins: set<nat>, loops: seq<LoopCtx>) {
    forall r: nat :: r in IterRegs(loops) ==> (r in ins || b.top <= r) && r < cx.top && !Spends(os, r)
  }

  lemma CarriedKept(b: Ctx, cx: Ctx, f: Ctx, os: Ops, os': Ops, ins: set<nat>, loops: seq<LoopCtx>)
    requires Carried(b, cx, os, ins, loops) && Spreads(os, os', cx.top) && cx.top <= f.top
    ensures Carried(b, f, os', ins, loops)
  {
    hide Spends; hide IterRegs;
  }

  lemma CarriedPush(b: Ctx, cx: Ctx, os: Ops, ins: set<nat>, loops: seq<LoopCtx>, lc: LoopCtx)
    requires Carried(b, cx, os, ins, loops) && lc.iter.None?
    ensures Carried(b, cx, os, ins, loops + [lc])
  {
    hide Spends;
    IterSnoc(loops, lc);
  }

  // ---- statements inside a stretch --------------------------------------

  lemma {:induction false} StepStmt(b: Ctx, cx: Ctx, os: Ops, ins: set<nat>, lay: Layout, loops: seq<LoopCtx>, s: Stmt)
    returns (os': Ops)
    requires WfLayout(lay) && WfStmt(lay, s) && Region(b, cx, os, lay.localsEnd, ins) && Carried(b, cx, os, ins, loops)
    requires !CompStmt(cx, lay, loops, s).failed
    ensures var f := CompStmt(cx, lay, loops, s);
            && Region(b, f, os', lay.localsEnd, ins) && Spreads(os, os', cx.top) && Carried(b, f, os', ins, loops)
            && cx.top <= f.top
    decreases s, 3
  {
    hide Region; hide CompStmt; hide WfStmt; hide WfLayout; hide Spends; hide IterRegs;
    RegionSmall(b, cx, os, lay.localsEnd, ins);
    var more := ListStmt(cx, lay, loops, s);
    os' := StepRun(b, cx, CompStmt(cx, lay, loops, s), os, more, lay.localsEnd, ins, loops);
  }

  // A stretch that touches no more of what is outside than the enclosing loops.
  lemma StepRun(b: Ctx, cx: Ctx, f: Ctx, os: Ops, more: Ops, base: nat, ins: set<nat>, loops: seq<LoopCtx>)
    returns (os': Ops)
    requires Region(b, cx, os, base, ins) && Carried(b, cx, os, ins, loops)
             && Region(cx, f, more, base, IterRegs(loops))
    ensures Region(b, f, os', base, ins) && Spreads(os, os', cx.top) && Carried(b, f, os', ins, loops)
            && cx.top <= f.top
  {
    hide Region; hide Spends; hide IterRegs; hide Shielded; hide LoudBefore;
    RegionSmall(cx, f, more, base, IterRegs(loops));
    StepSub(b, cx, f, os, more, base, ins, IterRegs(loops));
    os' := os + more;
    forall r: nat | Spends(os', r) ensures Spends(os, r) || r >= cx.top {
      if Spends(more, r) { SpendsOwn(cx, f, more, base, IterRegs(loops), r); }
    }
    CarriedKept(b, cx, f, os, os', ins, loops);
  }

  // The beginning of a statement.
  lemma BeginStmt(b: Ctx, base: nat, loops: seq<LoopCtx>)
    requires Small(b, base) && forall r :: r in IterRegs(loops) ==> r < b.top
    ensures Region(b, b, [], base, IterRegs(loops)) && Carried(b, b, [], IterRegs(loops), loops)
            && Spreads([], [], b.top)
  {
    hide IterRegs;
    Begin(b, base, IterRegs(loops));
  }

  lemma {:induction false} ListStmt(b: Ctx, lay: Layout, loops: seq<LoopCtx>, s: Stmt) returns (os: Ops)
    requires WfLayout(lay) && WfStmt(lay, s) && Small(b, lay.localsEnd)
             && (forall r :: r in IterRegs(loops) ==> r < b.top)
    requires !CompStmt(b, lay, loops, s).failed
    ensures Region(b, CompStmt(b, lay, loops, s), os, lay.localsEnd, IterRegs(loops))
    decreases s, 2
  {
    hide CompExpr; hide CompStmts; hide CompForLoop; hide CompOpt;

    hide CompJumpOut; hide EmitRegs; hide EmitCloses; hide CompReturnValue;
    var ins := IterRegs(loops);
    BeginStmt(b, lay.localsEnd, loops);

    match s
    case Empty => os := [];
    case ExprStmt(e) => os := StepExpr(b, b, [], ins, lay, e);
    case Block(body) => os := StepStmts(b, b, [], ins, lay, loops, body);
    case If(_, _, _) => os := ListIf(b, lay, loops, s);
    case While(name, t, _) =>
      WfSome(lay, t);
      os := StepForLoop(b, b, [], ins, lay, loops, name, Some(t), None, s);
    case DoWhile(_, _, _) => os := ListDoWhile(b, lay, loops, s);
    case For(_, _, _, _, _) => os := ListFor(b, lay, loops, s);
    case ForOf(_, _, _, _) => os := ListForOf(b, lay, loops, s);
    case Labeled(_, _) => os := ListLabeled(b, lay, loops, s);
    case Switch(_, _, _) => os := ListSwitch(b, lay, loops, s);
    case Break(l) => os := ListJumpOut(b, lay.localsEnd, loops, l, false);
    case Continue(l) => os := ListJumpOut(b, lay.localsEnd, loops, l, true);
    case Return(arg) => os := ListReturn(b, lay, loops, arg);
    case Throw(e) => os := ListThrow(b, lay, ins, e);
  }

  lemma WfSome(lay: Layout, e: Expr)
    requires WfExpr(lay, e)
    ensures WfOpt(lay, Some(e)) && WfOpt(lay, None)
  {
  }

  lemma {:induction false} ListFor(b: Ctx, lay: Layout, loops: seq<LoopCtx>, s: Stmt) returns (os: Ops)
    requires s.For? && WfLayout(lay) && WfStmt(lay, s) && Small(b, lay.localsEnd)
             && forall r :: r in IterRegs(loops) ==> r < b.top
    requires !CompForLoop(CompOpt(b, lay, s.init), lay, loops, s.name, s.cond, s.update, s).failed
    ensures Region(b, CompForLoop(CompOpt(b, lay, s.init), lay, loops, s.name, s.cond, s.update, s), os, lay.localsEnd,
                   IterRegs(loops))
    decreases s, 1, 1
  {
    hide Region; hide CompForLoop; hide CompOpt; hide WfLayout; hide IterRegs; hide Carried; hide Small; hide Ext;
    hide Spreads; hide WfOpt;
    var ins := IterRegs(loops);
    var b1 := CompOpt(b, lay, s.init);
    BeginStmt(b, lay.localsEnd, loops);
    GrowForLoop(b1, lay, loops, s.name, s.cond, s.update, s);
    FailsOn(b1, CompForLoop(b1, lay, loops, s.name, s.cond, s.update, s));
    var os1 := StepOpt(b, b, [], ins, lay, loops, s.init);
    os := StepForLoop(b, b1, os1, ins, lay, loops, s.name, s.cond, s.update, s);
  }

  lemma ListThrow(b: Ctx, lay: Layout, ins: set<nat>, e: Expr) returns (os: Ops)
    requires WfLayout(lay) && WfExpr(lay, e) && Region(b, b, [], lay.localsEnd, ins)
    requires var (b1, v) := CompExpr(b, lay, e); !EmitReg3(b1, THROW, v, 0, 0).failed
    ensures var (b1, v) := CompExpr(b, lay, e); Region(b, EmitReg3(b1, THROW, v, 0, 0), os, lay.localsEnd, ins)
  {
    hide Region; hide CompExpr; hide WfLayout; hide EmitRegs; hide Widens; hide Adds; hide Spends;
    var (b1, v) := CompExpr(b, lay, e);
    RegsShape(b1, THROW, v, 0, 0, 7);
    os := StepExpr(b, b, [], ins, lay, e);
    StepLeave(b, b1, os, lay.localsEnd, ins, THROW, v);
    os := os + [Reg(THROW, v, 0, 0, 7)];
  }

  // A return or a throw of v.
  lemma StepLeave(b: Ctx, cx: Ctx, os: Ops, base: nat, ins: set<nat>, op: Opcode, v: nat)
    requires Region(b, cx, os, base, ins) && (op == RETURN || op == THROW) && b.top <= v < cx.top && !Spends(os, v)
    ensures Region(b, EmitReg3(cx, op, v, 0, 0), os + [Reg(op, v, 0, 0, 7)], base, ins)
    ensures Adds(os, os + [Reg(op, v, 0, 0, 7)])
  {
    hide Region; hide Spends; hide EmitRegs; hide Adds; hide Uses; hide Writes;
    RegShape(op, v, 0, 0, 7);
    FreeTemp(b, cx, os, base, ins, v);
    ReachFits(b, cx, os, base, ins, v);
    StepReg(b, cx, os, base, ins, op, v, 0, 0, 7);
  }

  lemma {:induction false} StepStmts(b: Ctx, cx: Ctx, os: Ops, ins: set<nat>, lay: Layout, loops: seq<LoopCtx>,
                                     ss: Stmts) returns (os': Ops)
    requires WfLayout(lay) && WfStmts(lay, ss) && Region(b, cx, os, lay.localsEnd, ins)
             && Carried(b, cx, os, ins, loops)
    requires !CompStmts(cx, lay, loops, ss).failed
    ensures var f := CompStmts(cx, lay, loops, ss);
            && Region(b, f, os', lay.localsEnd, ins) && Spreads(os, os', cx.top) && Carried(b, f, os', ins, loops)
            && cx.top <= f.top
    decreases ss, 0
  {
    os' := os;
    SpreadsRefl(os, cx.top);
    hide Region; hide CompStmt; hide WfLayout; hide Carried; hide Spreads; hide Ext; hide WfStmt;
    if ss.Cons? {
      var b1 := CompStmt(cx, lay, loops, ss.head);
      GrowStmts(b1, lay, loops, ss.tail);
      FailsOn(b1, CompStmts(b1, lay, loops, ss.tail));
      var os1 := StepStmt(b, cx, os, ins, lay, loops, ss.head);
      os' := StepStmts(b, b1, os1, ins, lay, loops, ss.tail);
      SpreadsTrans(os, os1, os', cx.top, b1.top);
    }
  }

  // ---- parts of statements ----------------------------------------------

  lemma StepOpt(b: Ctx, cx: Ctx, os: Ops, ins: set<nat>, lay: Layout, loops: seq<LoopCtx>, e: Option<Expr>)
    returns (os': Ops)
    requires WfLayout(lay) && WfOpt(lay, e) && Region(b, cx, os, lay.localsEnd, ins) && Carried(b, cx, os, ins, loops)
    requires !CompOpt(cx, lay, e).failed
    ensures var f := CompOpt(cx, lay, e);
            && Region(b, f, os', lay.localsEnd, ins) && Spreads(os, os', cx.top) && Carried(b, f, os', ins, loops)
            && cx.top <= f.top
  {
    hide Region; hide CompExpr; hide WfLayout; hide Carried; hide Spreads; hide WfExpr; hide Widens;
    os' := os;
    SpreadsRefl(os, cx.top);
    if e.Some? {
      os' := StepExpr(b, cx, os, ins, lay, e.value);
      SpreadsWidens(os, os, os', cx.top, cx.top);
      CarriedKept(b, cx, CompOpt(cx, lay, e), os, os', ins, loops);
    }
  }

  lemma StepTest(b: Ctx, cx: Ctx, os: Ops, ins: set<nat>, lay: Layout, loops: seq<LoopCtx>, e: Option<Expr>, end: nat)
    returns (os': Ops)
    requires WfLayout(lay) && WfOpt(lay, e) && Region(b, cx, os, lay.localsEnd, ins) && Carried(b, cx, os, ins, loops)
    requires !CompTest(cx, lay, e, end).failed
    ensures var f := CompTest(cx, lay, e, end);
            && Region(b, f, os', lay.localsEnd, ins) && Spreads(os, os', cx.top) && Carried(b, f, os', ins, loops)
            && cx.top <= f.top
  {
    hide Region; hide CompExpr; hide WfLayout; hide Carried; hide Spreads; hide WfExpr; hide EmitJump; hide Widens;
    os' := os;
    SpreadsRefl(os, cx.top);
    if e.Some? { os' := StepCondition(b, cx, os, ins, lay, loops, e.value, JUMP_IF_FALSE, end); }
  }

  // An expression and a branch on it.
  lemma StepCondition(b: Ctx, cx: Ctx, os: Ops, ins: set<nat>, lay: Layout, loops: seq<LoopCtx>, e: Expr, op: Opcode,
                      l: nat) returns (os': Ops)
    requires WfLayout(lay) && WfExpr(lay, e) && Region(b, cx, os, lay.localsEnd, ins) && Carried(b, cx, os, ins, loops)
    requires (op == JUMP_IF_TRUE || op == JUMP_IF_FALSE) && var (b1, c) := CompExpr(cx, lay, e);
             !EmitJump(b1, op, c, l).failed
    ensures var (b1, c) := CompExpr(cx, lay, e);
            var f := EmitJump(b1, op, c, l);
            && Region(b, f, os', lay.localsEnd, ins) && Spreads(os, os', cx.top) && Carried(b, f, os', ins, loops)
            && cx.top <= f.top
  {
    hide Region; hide CompExpr; hide WfLayout; hide Carried; hide Spreads; hide WfExpr; hide EmitJump; hide Widens;
    hide Adds; hide Spends;
    var (b1, c) := CompExpr(cx, lay, e);
    JumpShape(b1, op, c, l);
    var os1 := StepExpr(b, cx, os, ins, lay, e);
    FreeTemp(b, b1, os1, lay.localsEnd, ins, c);
    StepJump(b, b1, os1, lay.localsEnd, ins, op, c, l);
    os' := os1 + [Jump(op, c, l)];
    SpreadsRefl(os, cx.top);
    SpreadsWidens(os, os, os1, cx.top, cx.top);
    SpreadsAdds(os, os1, os', cx.top);
    CarriedKept(b, cx, EmitJump(b1, op, c, l), os, os', ins, loops);
  }

  // A label bound, or an unconditional jump: nothing is spent.
  lemma StepLand(b: Ctx, cx: Ctx, os: Ops, base: nat, ins: set<nat>, loops: seq<LoopCtx>, l: nat) returns (os': Ops)
    requires Region(b, cx, os, base, ins) && Carried(b, cx, os, ins, loops) && !Bind(cx, l).failed
    ensures var f := Bind(cx, l);
            Region(b, f, os', base, ins) && Spreads(os, os', cx.top) && Carried(b, f, os', ins, loops)
            && f.top == cx.top
  {
    hide Region; hide Carried; hide Bind; hide Spends; hide Shielded; hide LoudBefore;
    BindFails(cx, l);
    StepBind(b, cx, os, base, ins, l);
    os' := os + [Mark];
    CarriedKept(b, cx, Bind(cx, l), os, os', ins, loops);
  }

  lemma StepGoto(b: Ctx, cx: Ctx, os: Ops, base: nat, ins: set<nat>, loops: seq<LoopCtx>, l: nat) returns (os': Ops)
    requires Region(b, cx, os, base, ins) && Carried(b, cx, os, ins, loops)
    ensures var f := EmitGoto(cx, l);
            Region(b, f, os', base, ins) && Spreads(os, os', cx.top) && Carried(b, f, os', ins, loops)
            && f.top == cx.top && f.failed == cx.failed
  {
    hide Region; hide Carried; hide EmitJump; hide Adds; hide Spreads;
    JumpShape(cx, JUMP, 0, l);
    StepJump(b, cx, os, base, ins, JUMP, 0, l);
    os' := os + [Jump(JUMP, 0, l)];
    SpreadsRefl(os, cx.top);
    SpreadsAdds(os, os, os', cx.top);
    CarriedKept(b, cx, EmitGoto(cx, l), os, os', ins, loops);
  }

  lemma StepNewLabel(b: Ctx, cx: Ctx, os: Ops, base: nat, ins: set<nat>, loops: seq<LoopCtx>)
    requires Region(b, cx, os, base, ins) && Carried(b, cx, os, ins, loops)
    ensures var f := NewLabel(cx).0;
            Region(b, f, os, base, ins) && Carried(b, f, os, ins, loops) && f.top == cx.top && f.failed == cx.failed
  {
    hide Region; hide IterRegs; hide Spends;
    StepLabel(b, cx, os, base, ins);
  }

  // ---- jumps out of loops -----------------------------------------------

  lemma {:induction false} StepCloses(b: Ctx, cx: Ctx, os: Ops, base: nat, ins: set<nat>, ls: seq<LoopCtx>)
    returns (os': Ops)
    requires Region(b, cx, os, base, ins) && IterRegs(ls) <= ins && !EmitCloses(cx, ls).failed
    ensures Region(b, EmitCloses(cx, ls), os', base, ins) && Adds(os, os') && cx.top <= EmitCloses(cx, ls).top
    decreases |ls|
  {
    os' := os;
    AddsRefl(os);
    if ls != [] {
      hide Region; hide Adds; hide CloseOne; hide EmitCloses;
      var (init, lc) := (ls[..|ls| - 1], ls[|ls| - 1]);
      var b1 := if lc.iter.Some? then CloseOne(cx, lc.iter.value) else cx;

      PlainCloses(b1, init);
      var os1 := os;
      if lc.iter.Some? { os1 := StepClose(b, cx, os, base, ins, lc.iter.value); }
      os' := StepCloses(b, b1, os1, base, ins, init);
      AddsTrans(os, os1, os');
    }
  }

  lemma StepClose(b: Ctx, cx: Ctx, os: Ops, base: nat, ins: set<nat>, it: (nat, nat)) returns (os': Ops)
    requires Region(b, cx, os, base, ins) && it.0 in ins && it.1 in ins && !CloseOne(cx, it).failed
    ensures Region(b, CloseOne(cx, it), os', base, ins) && Adds(os, os') && CloseOne(cx, it).top == cx.top + 1
  {
    hide Region; hide Adds; hide LoadBool; hide EmitRegs; hide Uses; hide Writes; hide Spends; hide Free; hide Shielded;
    hide LoudBefore;
    var cx1 := LoadBool(cx, it.1, true);
    RegsShape(cx1, ITERATOR_CLOSE, it.0, 1, 0, 7);
    RegionSmall(b, cx, os, base, ins);
    var os1 := StepBool(b, cx, os, base, ins, it.1, true);
    RegShape(ITERATOR_CLOSE, it.0, 1, 0, 7);
    FreeOuter(b, cx1, os1, base, ins, it.0);
    FreeReach(b, cx1, os1, base, ins, it.0);
    ReachFits(b, cx1, os1, base, ins, it.0);
    os' := os1 + [Reg(ITERATOR_CLOSE, it.0, 1, 0, 7)];
    StepReg(b, cx1, os1, base, ins, ITERATOR_CLOSE, it.0, 1, 0, 7);
    AddsTrans(os, os1, os');
  }

  lemma ListJumpOut(b: Ctx, base: nat, loops: seq<LoopCtx>, want: Option<Source.Label>, isCont: bool) returns (os: Ops)
    requires Small(b, base) && (forall r :: r in IterRegs(loops) ==> r < b.top)
             && !CompJumpOut(b, loops, want, isCont).failed
    ensures Region(b, CompJumpOut(b, loops, want, isCont), os, base, IterRegs(loops))
  {
    hide Region; hide Adds; hide EmitCloses; hide EmitJump; hide RPosition; hide IterRegs;
    var p := RPosition(loops, want, isCont).value;
    var from := if isCont then p + 1 else p;
    var l := if isCont then loops[p].cont.value else loops[p].brk;
    var b1 := EmitCloses(b, loops[from..]);
    JumpShape(b1, JUMP, 0, l);
    Begin(b, base, IterRegs(loops));
    IterTail(loops, from);
    os := StepCloses(b, b, [], base, IterRegs(loops), loops[from..]);
    StepJump(b, b1, os, base, IterRegs(loops), JUMP, 0, l);
    os := os + [Jump(JUMP, 0, l)];
  }

  lemma ListReturn(b: Ctx, lay: Layout, loops: seq<LoopCtx>, arg: Option<Expr>) returns (os: Ops)
    requires WfLayout(lay) && WfOpt(lay, arg) && Small(b, lay.localsEnd)
             && forall r :: r in IterRegs(loops) ==> r < b.top
    requires var (b1, v) := CompReturnValue(b, lay, arg); !EmitReg3(EmitCloses(b1, loops), RETURN, v, 0, 0).failed
    ensures var (b1, v) := CompReturnValue(b, lay, arg);
            Region(b, EmitReg3(EmitCloses(b1, loops), RETURN, v, 0, 0), os, lay.localsEnd, IterRegs(loops))
  {
    hide Region; hide Adds; hide EmitCloses; hide EmitRegs; hide IterRegs; hide CompReturnValue; hide Spends;
    hide WfLayout; hide WfExpr; hide Small;
    var base := lay.localsEnd;
    var ins := IterRegs(loops);
    var (b1, v) := CompReturnValue(b, lay, arg);
    var b2 := EmitCloses(b1, loops);
    RegsShape(b2, RETURN, v, 0, 0, 7);
    PlainCloses(b1, loops);
    var os1 := ListReturnValue(b, lay, ins, arg);
    var os2 := StepCloses(b, b1, os1, base, ins, loops);
    NotSpent(os1, os2, v);
    StepLeave(b, b2, os2, base, ins, RETURN, v);
    os := os2 + [Reg(RETURN, v, 0, 0, 7)];
  }

  lemma ListReturnValue(b: Ctx, lay: Layout, ins: set<nat>, arg: Option<Expr>) returns (os: Ops)
    requires WfLayout(lay) && WfOpt(lay, arg) && Small(b, lay.localsEnd) && (forall r :: r in ins ==> r < b.top)
    requires !CompReturnValue(b, lay, arg).0.failed
    ensures var (f, v) := CompReturnValue(b, lay, arg);
            Region(b, f, os, lay.localsEnd, ins) && b.top <= v < f.top && !Spends(os, v)
  {
    hide Region; hide Adds; hide CompExpr; hide MoveReg; hide Spends; hide WfLayout; hide WfExpr; hide NewTemps;
    hide Widens;
    Begin(b, lay.localsEnd, ins);
    if arg.Some? {
      os := StepExpr(b, b, [], ins, lay, arg.value);
    } else {
      var (b1, v) := NewTemp(b);
      MoveShape(b1, v, lay.localsEnd);
      StepTemps(b, b, [], lay.localsEnd, ins, 1);
      FreeOuter(b, b1, [], lay.localsEnd, ins, lay.localsEnd);
      StepMove(b, b1, [], lay.localsEnd, ins, v, lay.localsEnd);
      os := [] + [Reg(MOVE, v, lay.localsEnd, 0, 3)];
      NotSpent([], os, v);
    }
  }

  // ---- compound statements ----------------------------------------------

  lemma CarriedPop(b: Ctx, cx: Ctx, os: Ops, ins: set<nat>, loops: seq<LoopCtx>, lc: LoopCtx)
    requires Carried(b, cx, os, ins, loops + [lc])
    ensures Carried(b, cx, os, ins, loops)
  {
    hide Spends;
    IterSnoc(loops, lc);
  }

  // An expression whose value is used next.
  lemma StepOperand(b: Ctx, cx: Ctx, os: Ops, ins: set<nat>, lay: Layout, loops: seq<LoopCtx>, e: Expr)
    returns (os': Ops)
    requires WfLayout(lay) && WfExpr(lay, e) && Region(b, cx, os, lay.localsEnd, ins) && Carried(b, cx, os, ins, loops)
    requires !CompExpr(cx, lay, e).0.failed
    ensures var (f, r) := CompExpr(cx, lay, e);
            && Region(b, f, os', lay.localsEnd, ins) && Spreads(os, os', cx.top) && Carried(b, f, os', ins, loops)
            && cx.top <= r < f.top && b.top <= r && !Spends(os', r)
  {
    hide Region; hide CompExpr; hide WfLayout; hide Carried; hide Spreads; hide WfExpr; hide Widens; hide Spends;
    os' := StepExpr(b, cx, os, ins, lay, e);
    SpreadsRefl(os, cx.top);
    SpreadsWidens(os, os, os', cx.top, cx.top);
    CarriedKept(b, cx, CompExpr(cx, lay, e).0, os, os', ins, loops);
  }

  // A branch on register c.
  lemma StepBranch(b: Ctx, cx: Ctx, os: Ops, base: nat, ins: set<nat>, loops: seq<LoopCtx>, op: Opcode, c: nat, l: nat)
    returns (os': Ops)
    requires Region(b, cx, os, base, ins) && Carried(b, cx, os, ins, loops)
             && (op == JUMP_IF_TRUE || op == JUMP_IF_FALSE)
    requires Free(b, cx, os, base, ins, c)
    ensures var f := EmitJump(cx, op, c, l);
            Region(b, f, os', base, ins) && Adds(os, os') && Carried(b, f, os', ins, loops) && f.top == cx.top
  {
    hide Region; hide Carried; hide Spreads; hide EmitJump; hide Adds; hide Free;
    JumpShape(cx, op, c, l);
    StepJump(b, cx, os, base, ins, op, c, l);
    os' := os + [Jump(op, c, l)];
    SpreadsRefl(os, cx.top);
    SpreadsAdds(os, os, os', cx.top);
    CarriedKept(b, cx, EmitJump(cx, op, c, l), os, os', ins, loops);
  }

  lemma {:induction false} ListIf(b: Ctx, lay: Layout, loops: seq<LoopCtx>, s: Stmt) returns (os: Ops)
    requires s.If? && WfLayout(lay) && WfStmt(lay, s) && Small(b, lay.localsEnd)
             && forall r :: r in IterRegs(loops) ==> r < b.top
    requires !CompStmt(b, lay, loops, s).failed
    ensures Region(b, CompStmt(b, lay, loops, s), os, lay.localsEnd, IterRegs(loops))
    decreases s, 1
  {
    hide EmitJump; hide CompExpr;
    hide Bind;
    var base := lay.localsEnd;
    var ins := IterRegs(loops);
    var (b1, c) := CompExpr(b, lay, s.test);
    var (b2, elseL) := NewLabel(b1);
    var (b3, endL) := NewLabel(b2);
    var b4 := EmitJump(b3, JUMP_IF_FALSE, c, elseL);
    var b5 := CompStmt(b4, lay, loops, s.thn);
    var b6 := EmitGoto(b5, endL);
    var b7 := Bind(b6, elseL);
    var b8 := CompStmt(b7, lay, loops, s.els);

    BindFails(b8, endL);
    GrowStmt(b7, lay, loops, s.els); FailsOn(b7, b8);
    BindFails(b6, elseL);
    JumpShape(b5, JUMP, 0, endL);
    GrowStmt(b4, lay, loops, s.thn); FailsOn(b4, b5);
    JumpShape(b3, JUMP_IF_FALSE, c, elseL);
    BeginStmt(b, base, loops);
    var os1 := StepOperand(b, b, [], ins, lay, loops, s.test);
    StepNewLabel(b, b1, os1, base, ins, loops);
    StepNewLabel(b, b2, os1, base, ins, loops);
    FreeTemp(b, b3, os1, base, ins, c);
    var os2 := StepBranch(b, b3, os1, base, ins, loops, JUMP_IF_FALSE, c, elseL);
    var os3 := StepStmt(b, b4, os2, ins, lay, loops, s.thn);
    var os4 := StepGoto(b, b5, os3, base, ins, loops, endL);
    var os5 := StepLand(b, b6, os4, base, ins, loops, elseL);
    var os6 := StepStmt(b, b7, os5, ins, lay, loops, s.els);
    os := StepLand(b, b8, os6, base, ins, loops, endL);
  }

  // The header of a loop.
  lemma StepLoopStart(b: Ctx, cx: Ctx, os: Ops, base: nat, ins: set<nat>, loops: seq<LoopCtx>) returns (os': Ops)
    requires Region(b, cx, os, base, ins) && Carried(b, cx, os, ins, loops) && !LoopStart(cx).0.failed
    ensures var f := LoopStart(cx).0;
            Region(b, f, os', base, ins) && Spreads(os, os', cx.top) && Carried(b, f, os', ins, loops)
            && f.top == cx.top
  {
    hide Region; hide Carried; hide Spreads; hide Bind; hide EmitWords; hide Adds;
    var (b1, top) := NewLabel(cx);
    var (b2, _) := NewLabel(b1);
    var (b3, _) := NewLabel(b2);
    var b4 := Bind(b3, top);
    HeaderShape(b4);
    StepNewLabel(b, cx, os, base, ins, loops);
    StepNewLabel(b, b1, os, base, ins, loops);
    StepNewLabel(b, b2, os, base, ins, loops);
    BindFails(b3, top);
    var os1 := StepLand(b, b3, os, base, ins, loops, top);
    os' := StepHeader(b, b4, os1, base, ins, loops);
    SpreadsAdds(os, os1, os', cx.top);
  }

  lemma HeaderShape(cx: Ctx)
    ensures var f := EmitWords(cx, [Instr(LOOP_HEADER, 0, 0, 0)]);
            f == EmitRegs(cx, LOOP_HEADER, 0, 0, 0, 7) && f.top == cx.top && f.failed == cx.failed
            && f.labels == cx.labels
  {
  }

  lemma StepHeader(b: Ctx, cx: Ctx, os: Ops, base: nat, ins: set<nat>, loops: seq<LoopCtx>) returns (os': Ops)
    requires Region(b, cx, os, base, ins) && Carried(b, cx, os, ins, loops)
    ensures var f := EmitWords(cx, [Instr(LOOP_HEADER, 0, 0, 0)]);
            Region(b, f, os', base, ins) && Adds(os, os') && Carried(b, f, os', ins, loops) && f.top == cx.top
  {
    hide Region; hide Carried; hide Spreads; hide EmitWords; hide Adds; hide EmitRegs; hide Uses; hide Writes;
    HeaderShape(cx);
    RegShape(LOOP_HEADER, 0, 0, 0, 7);
    StepReg(b, cx, os, base, ins, LOOP_HEADER, 0, 0, 0, 7);
    os' := os + [Reg(LOOP_HEADER, 0, 0, 0, 7)];
    SpreadsRefl(os, cx.top);
    SpreadsAdds(os, os, os', cx.top);
    CarriedKept(b, cx, EmitWords(cx, [Instr(LOOP_HEADER, 0, 0, 0)]), os, os', ins, loops);
  }

  lemma {:induction false} StepForLoop(b: Ctx, cx: Ctx, os: Ops, ins: set<nat>, lay: Layout, loops: seq<LoopCtx>,
                                       name: Option<Source.Label>, test: Option<Expr>, update: Option<Expr>, s: Stmt)
                                         returns (os': Ops)
    requires (s.While? || s.For?) && WfLayout(lay) && WfStmt(lay, s) && WfOpt(lay, test) && WfOpt(lay, update)
    requires Region(b, cx, os, lay.localsEnd, ins) && Carried(b, cx, os, ins, loops)
             && !CompForLoop(cx, lay, loops, name, test, update, s).failed
    ensures Region(b, CompForLoop(cx, lay, loops, name, test, update, s), os', lay.localsEnd, ins)
    decreases s, 1, 0
  {
    hide EmitJump; hide CompStmt; hide Bind;

    hide LoopStart; hide CompTest; hide CompOpt;
    var base := lay.localsEnd;
    var (b1, top, cont, end) := LoopStart(cx);
    var b2 := CompTest(b1, lay, test, end);
    var lc := LoopCtx(end, Some(cont), name, None);
    var b3 := CompStmt(b2, lay, loops + [lc], s.body1);
    var b4 := Bind(b3, cont);
    var b5 := CompOpt(b4, lay, update);
    var b6 := EmitGoto(b5, top);

    BindFails(b6, end);
    JumpShape(b5, JUMP, 0, top);
    GrowOpt(b4, lay, update); FailsOn(b4, b5);
    BindFails(b3, cont);
    GrowStmt(b2, lay, loops + [lc], s.body1); FailsOn(b2, b3);
    GrowTest(b1, lay, test, end); FailsOn(b1, b2);
    var os1 := StepLoopStart(b, cx, os, base, ins, loops);
    var os2 := StepTest(b, b1, os1, ins, lay, loops, test, end);
    CarriedPush(b, b2, os2, ins, loops, lc);
    var os3 := StepStmt(b, b2, os2, ins, lay, loops + [lc], s.body1);
    CarriedPop(b, b3, os3, ins, loops, lc);
    var os4 := StepLand(b, b3, os3, base, ins, loops, cont);
    var os5 := StepOpt(b, b4, os4, ins, lay, loops, update);
    var os6 := StepGoto(b, b5, os5, base, ins, loops, top);
    os' := StepLand(b, b6, os6, base, ins, loops, end);
  }

  lemma {:induction false} ListDoWhile(b: Ctx, lay: Layout, loops: seq<LoopCtx>, s: Stmt) returns (os: Ops)
    requires s.DoWhile? && WfLayout(lay) && WfStmt(lay, s) && Small(b, lay.localsEnd)
             && forall r :: r in IterRegs(loops) ==> r < b.top
    requires !CompStmt(b, lay, loops, s).failed
    ensures Region(b, CompStmt(b, lay, loops, s), os, lay.localsEnd, IterRegs(loops))
    decreases s, 1
  {
    hide EmitJump; hide CompExpr; hide Bind;
    hide LoopStart;
    var base := lay.localsEnd;
    var ins := IterRegs(loops);
    var (b1, top, cont, end) := LoopStart(b);
    var lc := LoopCtx(end, Some(cont), s.name, None);
    var b2 := CompStmt(b1, lay, loops + [lc], s.body1);
    var b3 := Bind(b2, cont);
    var (b4, c) := CompExpr(b3, lay, s.test);
    var b5 := EmitJump(b4, JUMP_IF_TRUE, c, top);

    BindFails(b5, end);
    JumpShape(b4, JUMP_IF_TRUE, c, top);
    GrowExpr(b3, lay, s.test); FailsOn(b3, b4);
    BindFails(b2, cont);
    GrowStmt(b1, lay, loops + [lc], s.body1); FailsOn(b1, b2);
    BeginStmt(b, base, loops);
    var os1 := StepLoopStart(b, b, [], base, ins, loops);
    CarriedPush(b, b1, os1, ins, loops, lc);
    var os2 := StepStmt(b, b1, os1, ins, lay, loops + [lc], s.body1);
    CarriedPop(b, b2, os2, ins, loops, lc);
    var os3 := StepLand(b, b2, os2, base, ins, loops, cont);
    var os4 := StepCondition(b, b3, os3, ins, lay, loops, s.test, JUMP_IF_TRUE, top);
    os := StepLand(b, b5, os4, base, ins, loops, end);
  }

  lemma {:induction false} ListLabeled(b: Ctx, lay: Layout, loops: seq<LoopCtx>, s: Stmt) returns (os: Ops)
    requires s.Labeled? && WfLayout(lay) && WfStmt(lay, s) && Small(b, lay.localsEnd)
             && forall r :: r in IterRegs(loops) ==> r < b.top
    requires !CompStmt(b, lay, loops, s).failed
    ensures Region(b, CompStmt(b, lay, loops, s), os, lay.localsEnd, IterRegs(loops))
    decreases s, 1
  {
    hide Bind;

    var base := lay.localsEnd;
    var ins := IterRegs(loops);
    var (b1, end) := NewLabel(b);
    var lc := LoopCtx(end, None, Some(s.lab), None);
    var b2 := CompStmt(b1, lay, loops + [lc], s.body1);

    BindFails(b2, end);
    GrowStmt(b1, lay, loops + [lc], s.body1); FailsOn(b1, b2);
    BeginStmt(b, base, loops);
    StepNewLabel(b, b, [], base, ins, loops);
    CarriedPush(b, b1, [], ins, loops, lc);
    var os1 := StepStmt(b, b1, [], ins, lay, loops + [lc], s.body1);
    CarriedPop(b, b2, os1, ins, loops, lc);
    os := StepLand(b, b2, os1, base, ins, loops, end);
  }

  // ---- switch -----------------------------------------------------------

  lemma {:induction false} ListSwitch(b: Ctx, lay: Layout, loops: seq<LoopCtx>, s: Stmt) returns (os: Ops)
    requires s.Switch? && WfLayout(lay) && WfStmt(lay, s) && Small(b, lay.localsEnd)
             && forall r :: r in IterRegs(loops) ==> r < b.top
    requires !CompStmt(b, lay, loops, s).failed
    ensures Region(b, CompStmt(b, lay, loops, s), os, lay.localsEnd, IterRegs(loops))
    decreases s, 1
  {
    hide EmitJump; hide CompExpr; hide Bind;
    hide CompTests; hide CompBodies; hide Defaults;

    var base := lay.localsEnd;
    var ins := IterRegs(loops);
    var (b1, d) := CompExpr(b, lay, s.disc);
    var (b2, end) := NewLabel(b1);
    var one := Defaults(s.cases) == 1;
    var (b3, deflt) := if one then NewLabel(b2) else (b2, end);
    var (b4, entries) := CompTests(b3, lay, d, s.cases);
    var b5 := EmitGoto(b4, deflt);
    var lc := LoopCtx(end, None, s.name, None);
    var b6 := CompBodies(b5, lay, loops + [lc], s.cases, entries, deflt);

    BindFails(b6, end);
    BodiesFail(b5, lay, loops + [lc], s.cases, entries, deflt);
    JumpShape(b4, JUMP, 0, deflt);
    TestsFail(b3, lay, d, s.cases);
    BeginStmt(b, base, loops);
    var os1 := StepOperand(b, b, [], ins, lay, loops, s.disc);
    StepNewLabel(b, b1, os1, base, ins, loops);
    if one { StepNewLabel(b, b2, os1, base, ins, loops); }
    var os2 := StepTests(b, b3, os1, ins, lay, loops, d, s.cases);
    var os3 := StepGoto(b, b4, os2, base, ins, loops, deflt);
    CarriedPush(b, b5, os3, ins, loops, lc);
    var os4 := StepBodies(b, b5, os3, ins, lay, loops + [lc], s.cases, entries, deflt);
    CarriedPop(b, b6, os4, ins, loops, lc);
    os := StepLand(b, b6, os4, base, ins, loops, end);
  }

  // Failure is never forgotten by tests and bodies.
  lemma {:induction false} TestsFail(cx: Ctx, lay: Layout, d: nat, cs: Cases)
    ensures cx.failed ==> CompTests(cx, lay, d, cs).0.failed
    decreases cs
  {
    hide CompExpr; hide EmitRegs; hide EmitJump; hide NewTemps; hide Ext;
    if cs.Case? {
      if cs.test.None? { TestsFail(cx, lay, d, cs.rest); return; }
      var (b1, v) := CompExpr(cx, lay, cs.test.value);
      var (b2, eq) := NewTemp(b1);
      var b3 := EmitReg3(b2, STRICT_EQ, eq, d, v);
      var (b4, entry) := NewLabel(b3);
      GrowExpr(cx, lay, cs.test.value);
      PlainTemps(b1, 1);
      RegsShape(b2, STRICT_EQ, eq, d, v, 7);
      JumpShape(b4, JUMP_IF_TRUE, eq, entry);
      TestsFail(EmitJump(b4, JUMP_IF_TRUE, eq, entry), lay, d, cs.rest);
      ExtFails(cx, b1);
    }
  }

  lemma ExtFails(b: Ctx, f: Ctx)
    requires Ext(b, f, {})
    ensures b.failed ==> f.failed
  {
  }

  lemma {:induction false} BodiesFail(cx: Ctx, lay: Layout, loops: seq<LoopCtx>, cs: Cases, entries: seq<nat>,
                                      deflt: nat)
    ensures cx.failed ==> CompBodies(cx, lay, loops, cs, entries, deflt).failed
    decreases cs
  {
    hide CompStmts; hide Ext;
    if cs.Case? && (cs.test.None? || entries != []) {
      var b1 := Bind(cx, if cs.test.None? then deflt else entries[0]);
      GrowStmts(b1, lay, loops, cs.body);
      ExtFails(b1, CompStmts(b1, lay, loops, cs.body));
      BodiesFail(CompStmts(b1, lay, loops, cs.body), lay, loops, cs.rest, if cs.test.None? then entries
                 else entries[1..], deflt);
    }
  }

  // One test: the clause's expression, a comparison and a branch.
  function TestAt(cx: Ctx, lay: Layout, d: nat, e: Expr): Ctx {
    var (b1, v) := CompExpr(cx, lay, e);
    var (b2, eq) := NewTemp(b1);
    var (b3, entry) := NewLabel(EmitReg3(b2, STRICT_EQ, eq, d, v));
    EmitJump(b3, JUMP_IF_TRUE, eq, entry)
  }

  lemma StepTestAt(b: Ctx, cx: Ctx, os: Ops, ins: set<nat>, lay: Layout, loops: seq<LoopCtx>, d: nat, e: Expr)
    returns (os': Ops)
    requires WfLayout(lay) && WfExpr(lay, e) && Region(b, cx, os, lay.localsEnd, ins) && Carried(b, cx, os, ins, loops)
    requires b.top <= d < cx.top && !Spends(os, d) && !TestAt(cx, lay, d, e).failed
    ensures var f := TestAt(cx, lay, d, e);
            && Region(b, f, os', lay.localsEnd, ins) && Spreads(os, os', cx.top) && Carried(b, f, os', ins, loops)
            && cx.top <= f.top
            && !Spends(os', d)
  {
    hide Region; hide Carried; hide Spreads; hide EmitJump; hide EmitRegs; hide CompExpr; hide WfLayout; hide IterRegs;
    hide Spends; hide NewTemps; hide WfExpr; hide Adds; hide Free; hide Uses; hide Writes;
    var base := lay.localsEnd;
    var (b1, v) := CompExpr(cx, lay, e);
    var (b2, eq) := NewTemp(b1);
    var b3 := EmitReg3(b2, STRICT_EQ, eq, d, v);
    var (b4, entry) := NewLabel(b3);
    JumpShape(b4, JUMP_IF_TRUE, eq, entry);
    RegsShape(b2, STRICT_EQ, eq, d, v, 7);
    PlainTemps(b1, 1);
    var os1 := StepOperand(b, cx, os, ins, lay, loops, e);
    SpreadUnspent(os, os1, cx.top, d);
    StepTemps(b, b1, os1, base, ins, 1);
    RegShape(STRICT_EQ, eq, d, v, 7);
    FreeTemp(b, b2, os1, base, ins, d);
    FreeTemp(b, b2, os1, base, ins, v);
    ReachFits(b, b2, os1, base, ins, eq);
    ReachFits(b, b2, os1, base, ins, d);
    ReachFits(b, b2, os1, base, ins, v);
    var os2 := os1 + [Reg(STRICT_EQ, eq, d, v, 7)];
    StepReg(b, b2, os1, base, ins, STRICT_EQ, eq, d, v, 7);
    NotSpent(os1, os2, eq); NotSpent(os1, os2, d);
    SpreadsAdds(os, os1, os2, cx.top);
    SpreadsRefl(os1, b1.top);
    SpreadsAdds(os1, os1, os2, b1.top);
    CarriedKept(b, b1, b3, os1, os2, ins, loops);
    StepNewLabel(b, b3, os2, base, ins, loops);
    FreeTemp(b, b4, os2, base, ins, eq);
    os' := StepBranch(b, b4, os2, base, ins, loops, JUMP_IF_TRUE, eq, entry);
    SpreadsAdds(os, os2, os', cx.top);
    NotSpent(os2, os', d);
  }

  lemma SpreadUnspent(os: Ops, os': Ops, top: nat, r: nat)
    requires Spreads(os, os', top) && !Spends(os, r) && r < top
    ensures !Spends(os', r)
  {
    hide Spends;
  }

  lemma {:induction false} StepTests(b: Ctx, cx: Ctx, os: Ops, ins: set<nat>, lay: Layout, loops: seq<LoopCtx>, d: nat,
                                     cs: Cases) returns (os': Ops)
    requires WfLayout(lay) && WfCases(lay, cs) && Region(b, cx, os, lay.localsEnd, ins)
             && Carried(b, cx, os, ins, loops)
    requires b.top <= d < cx.top && !Spends(os, d) && !CompTests(cx, lay, d, cs).0.failed
    ensures var f := CompTests(cx, lay, d, cs).0;
            && Region(b, f, os', lay.localsEnd, ins) && Spreads(os, os', cx.top) && Carried(b, f, os', ins, loops)
            && cx.top <= f.top
    decreases cs
  {
    os' := os;
    SpreadsRefl(os, cx.top);
    if cs.Case? {
      if cs.test.None? {
        os' := StepTests(b, cx, os, ins, lay, loops, d, cs.rest);
      } else {
        var b1 := TestAt(cx, lay, d, cs.test.value);
        TestsFail(b1, lay, d, cs.rest);
        var os1 := StepTestAt(b, cx, os, ins, lay, loops, d, cs.test.value);
        os' := StepTests(b, b1, os1, ins, lay, loops, d, cs.rest);
        SpreadsTrans(os, os1, os', cx.top, b1.top);
      }
    }
  }

  lemma {:induction false} StepBodies(b: Ctx, cx: Ctx, os: Ops, ins: set<nat>, lay: Layout, loops: seq<LoopCtx>,
                                      cs: Cases, entries: seq<nat>, deflt: nat)
    returns (os': Ops)
    requires WfLayout(lay) && WfCases(lay, cs) && Region(b, cx, os, lay.localsEnd, ins)
             && Carried(b, cx, os, ins, loops)
    requires !CompBodies(cx, lay, loops, cs, entries, deflt).failed
    ensures var f := CompBodies(cx, lay, loops, cs, entries, deflt);
            Region(b, f, os', lay.localsEnd, ins) && Carried(b, f, os', ins, loops) && cx.top <= f.top
    decreases cs, 0
  {
    hide CompStmts; hide Bind;

    os' := os;
    if cs.Case? {
      var l := if cs.test.None? then deflt else entries[0];
      var b1 := Bind(cx, l);
      var b2 := CompStmts(b1, lay, loops, cs.body);
      var more := if cs.test.None? then entries else entries[1..];
      BodiesFail(b2, lay, loops, cs.rest, more, deflt);
      GrowStmts(b1, lay, loops, cs.body); FailsOn(b1, b2);
      var os1 := StepLand(b, cx, os, lay.localsEnd, ins, loops, l);
      var os2 := StepStmts(b, b1, os1, ins, lay, loops, cs.body);
      os' := StepBodies(b, b2, os2, ins, lay, loops, cs.rest, more, deflt);
      BindFails(cx, l);
    }
  }

  // ---- for-of -----------------------------------------------------------

  // A property of obj under a constant name, in a fresh register.
  lemma StepGetStr(b: Ctx, cx: Ctx, os: Ops, base: nat, ins: set<nat>, obj: nat, name: string) returns (os': Ops)
    requires Region(b, cx, os, base, ins) && Free(b, cx, os, base, ins, obj) && !CompGetStr(cx, obj, name).0.failed
    ensures var (f, d) := CompGetStr(cx, obj, name);
            Region(b, f, os', base, ins) && Adds(os, os') && cx.top <= d < f.top && b.top <= d && f.top == cx.top + 2
            && !Spends(os', d)
  {
    hide Region; hide Adds; hide Spends; hide LoadConst; hide EmitRegs; hide NewTemps; hide Uses; hide Writes;
    hide Shielded; hide LoudBefore;
    var (b1, k) := NewTemp(cx);
    var b2 := LoadConst(b1, k, Str(name));
    var (b3, d) := NewTemp(b2);
    RegsShape(b3, GET_PROPERTY, d, obj, k, 7);
    PlainTemps(b2, 1);
    PlainConst(b1, k, Str(name));
    PlainTemps(cx, 1);
    RegionSmall(b, cx, os, base, ins);
    StepTemps(b, cx, os, base, ins, 1);
    var os1 := StepConst(b, b1, os, base, ins, k, Str(name));
    NotSpent(os, os1, k);
    NotSpent(os, os1, obj);
    StepTemps(b, b2, os1, base, ins, 1);
    RegShape(GET_PROPERTY, d, obj, k, 7);
    ReachFits(b, b3, os1, base, ins, d);
    ReachFits(b, b3, os1, base, ins, k);
    ReachFits(b, b3, os1, base, ins, obj);
    os' := os1 + [Reg(GET_PROPERTY, d, obj, k, 7)];
    StepReg(b, b3, os1, base, ins, GET_PROPERTY, d, obj, k, 7);
    AddsTrans(os, os1, os');
    NotSpent(os1, os', d);
  }

  // The registers of a for-of are within reach and not spent.
  ghost predicate HeadFree(b: Ctx, cx: Ctx, os: Ops, h: Head) {
    Own(b, cx, os, h.iter) && Own(b, cx, os, h.guard) && Own(b, cx, os, h.exc)
  }

  ghost predicate Own(b: Ctx, cx: Ctx, os: Ops, r: nat) { b.top <= r < cx.top && !Spends(os, r) }

  lemma ListSetup(b: Ctx, lay: Layout, loops: seq<LoopCtx>, rhs: Expr) returns (os: Ops)
    requires WfLayout(lay) && WfExpr(lay, rhs) && Small(b, lay.localsEnd)
             && forall r :: r in IterRegs(loops) ==> r < b.top
    requires !CompForOfSetup(b, lay, rhs).0.cx.failed
    ensures var (h, result) := CompForOfSetup(b, lay, rhs);
            && Region(b, h.cx, os, lay.localsEnd, IterRegs(loops)) && Carried(b, h.cx, os, IterRegs(loops), loops)
            && HeadFree(b, h.cx, os, h) && b.top <= result < h.cx.top && !Spends(os, result)
            && h.tryStart == |h.cx.items|
  {
    hide Region; hide Carried; hide Spreads; hide CompExpr; hide WfLayout; hide IterRegs; hide Spends; hide Small;
    hide NewTemps; hide EmitRegs; hide LoadBool; hide Adds;
    hide Uses; hide Writes; hide CompForOfSetup; hide WfExpr; hide HeadFree;
    var base := lay.localsEnd;
    var ins := IterRegs(loops);
    var (b1, r) := CompExpr(b, lay, rhs);
    var (b2, iter) := NewTemp(b1);
    var b3 := EmitReg3(b2, GET_ITERATOR, iter, r, 0);
    var (b4, result) := NewTemp(b3);
    var (b5, top) := NewLabel(b4);
    var (b6, cont) := NewLabel(b5);
    var (b7, end) := NewLabel(b6);
    var (b8, guard) := NewTemp(b7);
    var b9 := LoadBool(b8, guard, false);
    SetupUnfold(b, lay, rhs);
    PlainTemps(b9, 1); PlainBool(b8, guard, false); PlainTemps(b7, 1); PlainTemps(b3, 1);
    RegsShape(b2, GET_ITERATOR, iter, r, 0, 7);
    PlainTemps(b1, 1);
    BeginStmt(b, base, loops);
    var os1 := StepOperand(b, b, [], ins, lay, loops, rhs);
    StepTemps(b, b1, os1, base, ins, 1);
    RegShape(GET_ITERATOR, iter, r, 0, 7);
    FreeTemp(b, b2, os1, base, ins, r);
    ReachFits(b, b2, os1, base, ins, r);
    ReachFits(b, b2, os1, base, ins, iter);
    var os2 := os1 + [Reg(GET_ITERATOR, iter, r, 0, 7)];
    StepReg(b, b2, os1, base, ins, GET_ITERATOR, iter, r, 0, 7);
    StepTemps(b, b3, os2, base, ins, 1);
    StepLabel(b, b4, os2, base, ins); StepLabel(b, b5, os2, base, ins); StepLabel(b, b6, os2, base, ins);
    StepTemps(b, b7, os2, base, ins, 1);
    RegionSmall(b, b8, os2, base, ins);
    os := StepBool(b, b8, os2, base, ins, guard, false);
    StepTemps(b, b9, os, base, ins, 1);
    SetupEnd(b, b1, NewTemp(b9).0, os1, os2, os, ins, loops, CompForOfSetup(b, lay, rhs).0, result);
  }

  lemma SetupUnfold(b: Ctx, lay: Layout, rhs: Expr)
    ensures var (b1, r) := CompExpr(b, lay, rhs);
            var (b2, iter) := NewTemp(b1);
            var (b4, result) := NewTemp(EmitReg3(b2, GET_ITERATOR, iter, r, 0));
            var (b5, top) := NewLabel(b4);
            var (b6, cont) := NewLabel(b5);
            var (b7, end) := NewLabel(b6);
            var (b8, guard) := NewTemp(b7);
            var (b9, exc) := NewTemp(LoadBool(b8, guard, false));
            CompForOfSetup(b, lay, rhs) == (Head(b9, iter, guard, exc, |b9.items|, top, cont, end), result)
  {
    hide CompExpr; hide NewTemps; hide EmitRegs; hide LoadBool;
  }

  lemma SetupEnd(b: Ctx, b1: Ctx, f: Ctx, os1: Ops, os2: Ops, os: Ops, ins: set<nat>, loops: seq<LoopCtx>, h: Head,
                 result: nat)
    requires Carried(b, b1, os1, ins, loops) && Adds(os1, os2) && Adds(os2, os) && b1.top <= f.top
    requires b.top <= h.iter < f.top && b.top <= h.guard < f.top && b.top <= h.exc < f.top
    requires !Spends(os1, h.iter) && !Spends(os2, result) && !Spends(os2, h.guard) && !Spends(os, h.exc)
    ensures Carried(b, f, os, ins, loops) && HeadFree(b, f, os, h) && !Spends(os, result)
  {
    hide Spends; hide Adds; hide IterRegs; hide Spreads; hide Carried;
    AddsTrans(os1, os2, os);
    SpreadsRefl(os1, b1.top);
    SpreadsAdds(os1, os1, os, b1.top);
    CarriedKept(b, b1, f, os1, os, ins, loops);
    NotSpent(os1, os, h.iter);
    NotSpent(os2, os, result);
    NotSpent(os2, os, h.guard);
  }

  // A for-of up to the request for the next result.
  function HeadTop(b: Ctx, lay: Layout, rhs: Expr): Ctx {
    var (h, result) := CompForOfSetup(b, lay, rhs);
    EmitReg3(EmitWords(Bind(h.cx, h.top), [Instr(LOOP_HEADER, 0, 0, 0)]), ITERATOR_NEXT, result, h.iter, 0)
  }

  // Reading `done` and `value` of that result.
  function HeadRead(cx: Ctx, lay: Layout, x: Sym, result: nat, end: nat): Ctx {
    var (b4, done) := CompGetStr(cx, result, "done");
    var (b6, value) := CompGetStr(EmitJump(b4, JUMP_IF_TRUE, done, end), result, "value");
    if RegOf(lay, x) != value then MoveReg(b6, RegOf(lay, x), value) else b6
  }

  lemma HeadKept(b: Ctx, cx: Ctx, f: Ctx, os: Ops, os': Ops, h: Head)
    requires HeadFree(b, cx, os, h) && Spreads(os, os', cx.top) && cx.top <= f.top
    ensures HeadFree(b, f, os', h)
  {
    hide Spends;
  }

  lemma HeadIter(b: Ctx, cx: Ctx, os: Ops, base: nat, ins: set<nat>, h: Head)
    requires HeadFree(b, cx, os, h)
    ensures Free(b, cx, os, base, ins, h.iter) && b.top <= h.iter < cx.top
  {
    hide Spends;
  }

  lemma ListHeadTop(b: Ctx, lay: Layout, loops: seq<LoopCtx>, rhs: Expr) returns (os: Ops)
    requires WfLayout(lay) && WfExpr(lay, rhs) && Small(b, lay.localsEnd)
             && forall r :: r in IterRegs(loops) ==> r < b.top
    requires !HeadTop(b, lay, rhs).failed
    ensures var (h, result) := CompForOfSetup(b, lay, rhs);
            var f := HeadTop(b, lay, rhs);
            && Region(b, f, os, lay.localsEnd, IterRegs(loops)) && Carried(b, f, os, IterRegs(loops), loops)
            && HeadFree(b, f, os, h) && b.top <= result < f.top && !Spends(os, result)
  {
    hide Region; hide Carried; hide Spreads; hide WfLayout; hide IterRegs; hide Spends; hide Small; hide EmitRegs;
    hide EmitWords;
    hide Adds; hide Uses; hide Writes; hide CompForOfSetup; hide WfExpr; hide HeadFree; hide Bind; hide Free;
    var base := lay.localsEnd;
    var ins := IterRegs(loops);
    var (h, result) := CompForOfSetup(b, lay, rhs);
    var b1 := Bind(h.cx, h.top);
    var b2 := EmitWords(b1, [Instr(LOOP_HEADER, 0, 0, 0)]);
    var b3 := EmitReg3(b2, ITERATOR_NEXT, result, h.iter, 0);
    RegsShape(b2, ITERATOR_NEXT, result, h.iter, 0, 7);
    HeaderShape(b1);
    BindFails(h.cx, h.top);
    var os1 := ListSetup(b, lay, loops, rhs);
    var os2 := StepLand(b, h.cx, os1, base, ins, loops, h.top);
    var os3 := StepHeader(b, b1, os2, base, ins, loops);
    SpreadsAdds(os1, os2, os3, h.cx.top);
    HeadKept(b, h.cx, b2, os1, os3, h);
    HeadIter(b, b2, os3, base, ins, h);
    RegShape(ITERATOR_NEXT, result, h.iter, 0, 7);
    ReachFits(b, b2, os3, base, ins, result);
    ReachFits(b, b2, os3, base, ins, h.iter);
    os := os3 + [Reg(ITERATOR_NEXT, result, h.iter, 0, 7)];
    StepReg(b, b2, os3, base, ins, ITERATOR_NEXT, result, h.iter, 0, 7);
    SpreadsAdds(os1, os3, os, h.cx.top);
    HeadKept(b, h.cx, b3, os1, os, h);
    CarriedKept(b, h.cx, b3, os1, os, ins, loops);
    SpreadUnspent(os1, os, h.cx.top, result);
  }

  lemma StepHeadRead(b: Ctx, cx: Ctx, os: Ops, ins: set<nat>, lay: Layout, x: Sym, result: nat, end: nat)
    returns (os': Ops)
    requires WfLayout(lay) && Region(b, cx, os, lay.localsEnd, ins) && b.top <= result < cx.top && !Spends(os, result)
    requires !HeadRead(cx, lay, x, result, end).failed
    ensures Region(b, HeadRead(cx, lay, x, result, end), os', lay.localsEnd, ins) && Adds(os, os')
    ensures cx.top <= HeadRead(cx, lay, x, result, end).top
  {
    hide Region; hide WfLayout; hide Spends; hide EmitJump; hide MoveReg; hide CompGetStr; hide Adds; hide RegOf;
    hide Free;
    var base := lay.localsEnd;
    var (b4, done) := CompGetStr(cx, result, "done");
    var b5 := EmitJump(b4, JUMP_IF_TRUE, done, end);
    var (b6, value) := CompGetStr(b5, result, "value");
    MoveShape(b6, RegOf(lay, x), value);
    PlainGetStr(b5, result, "value");
    JumpShape(b4, JUMP_IF_TRUE, done, end);
    FreeTemp(b, cx, os, base, ins, result);
    var os5 := StepGetStr(b, cx, os, base, ins, result, "done");
    FreeTemp(b, b4, os5, base, ins, done);
    StepJump(b, b4, os5, base, ins, JUMP_IF_TRUE, done, end);
    var os6 := os5 + [Jump(JUMP_IF_TRUE, done, end)];
    AddsTrans(os, os5, os6);
    NotSpent(os, os6, result);
    FreeTemp(b, b5, os6, base, ins, result);
    var os7 := StepGetStr(b, b5, os6, base, ins, result, "value");
    AddsTrans(os, os6, os7);
    os' := os7;
    if RegOf(lay, x) != value {
      RegBelow(lay, x);
      FreeTemp(b, b6, os7, base, ins, value);
      StepMove(b, b6, os7, base, ins, RegOf(lay, x), value);
      os' := os7 + [Reg(MOVE, RegOf(lay, x), value, 0, 3)];
      AddsTrans(os, os7, os');
    }
  }

  // The head of a for-of: advance, test, read and bind.
  lemma ListHead(b: Ctx, lay: Layout, loops: seq<LoopCtx>, x: Sym, rhs: Expr) returns (os: Ops)
    requires WfLayout(lay) && WfExpr(lay, rhs) && Small(b, lay.localsEnd)
             && forall r :: r in IterRegs(loops) ==> r < b.top
    requires !CompForOfHead(b, lay, x, rhs).cx.failed
    ensures var h := CompForOfHead(b, lay, x, rhs);
            && Region(b, h.cx, os, lay.localsEnd, IterRegs(loops)) && Carried(b, h.cx, os, IterRegs(loops), loops)
            && HeadFree(b, h.cx, os, h) && h.tryStart <= |h.cx.items|
  {
    hide CompForOfSetup;
    var ins := IterRegs(loops);
    var (h, result) := CompForOfSetup(b, lay, rhs);
    var b3 := HeadTop(b, lay, rhs);
    var f := HeadRead(b3, lay, x, result, h.end);

    GrowHead(b, lay, x, rhs);
    assert b3.failed ==> HeadRead(b3, lay, x, result, h.end).failed by {
      var (b4, done) := CompGetStr(b3, result, "done");
      var b5 := EmitJump(b4, JUMP_IF_TRUE, done, h.end);
      var (b6, value) := CompGetStr(b5, result, "value");
      PlainGetStr(b3, result, "done");
      JumpShape(b4, JUMP_IF_TRUE, done, h.end);
      PlainGetStr(b5, result, "value");
      MoveShape(b6, RegOf(lay, x), value);
    }
    var os1 := ListHeadTop(b, lay, loops, rhs);
    os := StepHeadRead(b, b3, os1, ins, lay, x, result, h.end);
    SpreadsRefl(os1, b3.top);
    SpreadsAdds(os1, os1, os, b3.top);
    HeadKept(b, b3, f, os1, os, h);
    CarriedKept(b, b3, f, os1, os, ins, loops);
  }

  // A mark without a label.
  lemma StepMark(b: Ctx, cx: Ctx, os: Ops, base: nat, ins: set<nat>)
    requires Region(b, cx, os, base, ins)
    ensures Region(b, cx, os + [Mark], base, ins) && MarkedAt(os + [Mark], |b.items|, |cx.items|)
    ensures forall r :: Spends(os + [Mark], r) ==> Spends(os, r)
  {
    hide Items; hide Frugal; hide OpOk; hide Spends;
    var os' := os + [Mark];
    FrugalSnoc(os, Mark);
    ItemsSnoc(os, Mark);
    assert OpOk(Mark, ScopeOf(b, cx, base, ins), |cx.consts|) by { MarkOk(ScopeOf(b, cx, base, ins), |cx.consts|); }
    assert os'[..|os|] == os && os'[|os|].Mark?;
    MarkSpends(os);
    hide MarkedAt;
    forall pos | MarkedAt(os, |b.items|, pos)
      ensures MarkedAt(os', |b.items|, pos)
    {
      MarkedLeft(os, [Mark], |b.items|, pos);
    }
  }

  // A handler whose target is marked.
  lemma StepHandler(b: Ctx, cx: Ctx, os: Ops, base: nat, ins: set<nat>, h: Handler, m: nat)
    requires Region(b, cx, os, base, ins) && MarkedAt(os, |b.items|, h.target) && h.start <= |cx.items|
             && h.end <= |cx.items|
    ensures Region(b, cx.(handlers := cx.handlers + [h], handlerMax := m), os, base, ins)
  {
    hide Items; hide Frugal; hide OpsOk; hide MarkedAt;
  }

  lemma MarkedPrefix(os: Ops, os': Ops, start: nat, pos: nat)
    requires MarkedAt(os, start, pos) && os <= os'
    ensures MarkedAt(os', start, pos)
  {
    assert os' == os + os'[|os|..];
    MarkedLeft(os, os'[|os|..], start, pos);
  }

  // The back edge and the exit point.
  function TailTop(cx: Ctx, h: Head): Ctx { Bind(EmitGoto(Bind(cx, h.cont), h.top), h.end) }

  // The handler's code, from its first word on.
  function TailCatch(cx: Ctx, h: Head, over: nat): Ctx {
    var (cx4, skip) := NewLabel(cx);
    var cx5 := EmitJump(cx4, JUMP_IF_TRUE, h.guard, skip);
    var cx6 := Bind(EmitReg3(cx5, ITERATOR_CLOSE, h.iter, 0, 0), skip);
    Bind(EmitReg3(cx6, THROW, h.exc, 0, 0), over)
  }

  lemma TailUnfold(cx: Ctx, h: Head)
    ensures var (cx2, over) := NewLabel(TailTop(cx, h));
            var cx3 := EmitGoto(cx2, over);
            var f := TailCatch(cx3, h, over);
            CompForOfTail(cx, h) ==
            f.(handlers := f.handlers + [Handler(h.tryStart, |cx3.items|, |cx3.items|, h.exc)],
               handlerMax := Max(f.handlerMax, h.exc + 1))
  {
    hide EmitRegs; hide EmitJump; hide Bind;
  }

  lemma StepCatch(b: Ctx, cx: Ctx, os: Ops, base: nat, ins: set<nat>, h: Head, over: nat) returns (os': Ops)
    requires Region(b, cx, os, base, ins) && HeadFree(b, cx, os, h) && !TailCatch(cx, h, over).failed
    ensures Region(b, TailCatch(cx, h, over), os', base, ins) && os <= os'
            && |cx.items| <= |TailCatch(cx, h, over).items|
  {
    hide Region; hide Spends; hide EmitRegs; hide EmitJump; hide Bind; hide Adds; hide Uses; hide Writes; hide Free;
    hide Shielded; hide LoudBefore;
    var (cx4, skip) := NewLabel(cx);
    var cx5 := EmitJump(cx4, JUMP_IF_TRUE, h.guard, skip);
    var cx6 := EmitReg3(cx5, ITERATOR_CLOSE, h.iter, 0, 0);
    var cx7 := Bind(cx6, skip);
    var cx8 := EmitReg3(cx7, THROW, h.exc, 0, 0);
    BindFails(cx8, over);
    RegsShape(cx7, THROW, h.exc, 0, 0, 7);
    BindFails(cx6, skip);
    RegsShape(cx5, ITERATOR_CLOSE, h.iter, 0, 0, 7);
    JumpShape(cx4, JUMP_IF_TRUE, h.guard, skip);
    StepLabel(b, cx, os, base, ins);
    FreeTemp(b, cx4, os, base, ins, h.guard);
    StepJump(b, cx4, os, base, ins, JUMP_IF_TRUE, h.guard, skip);
    var os1 := os + [Jump(JUMP_IF_TRUE, h.guard, skip)];
    NotSpent(os, os1, h.iter);
    RegShape(ITERATOR_CLOSE, h.iter, 0, 0, 7);
    FreeTemp(b, cx5, os1, base, ins, h.iter);
    ReachFits(b, cx5, os1, base, ins, h.iter);
    StepReg(b, cx5, os1, base, ins, ITERATOR_CLOSE, h.iter, 0, 0, 7);
    var os2 := os1 + [Reg(ITERATOR_CLOSE, h.iter, 0, 0, 7)];
    AddsTrans(os, os1, os2);
    StepBind(b, cx6, os2, base, ins, skip);
    var os3 := os2 + [Mark];
    NotSpent(os, os2, h.exc);
    StepLeave(b, cx7, os3, base, ins, THROW, h.exc);
    var os4 := os3 + [Reg(THROW, h.exc, 0, 0, 7)];
    StepBind(b, cx8, os4, base, ins, over);
    os' := os4 + [Mark];
    BindItems(cx6, skip); BindItems(cx8, over);
  }

  lemma BindItems(cx: Ctx, l: nat)
    ensures Bind(cx, l).items == cx.items
  {
  }

  lemma StepTail(b: Ctx, cx: Ctx, os: Ops, base: nat, ins: set<nat>, loops: seq<LoopCtx>, h: Head) returns (os': Ops)
    requires Region(b, cx, os, base, ins) && Carried(b, cx, os, ins, loops) && HeadFree(b, cx, os, h)
             && h.tryStart <= |cx.items|
    requires !CompForOfTail(cx, h).failed
    ensures Region(b, CompForOfTail(cx, h), os', base, ins)
  {
    hide Spends;

    var cx0 := Bind(cx, h.cont);
    var cx0' := EmitGoto(cx0, h.top);
    var cx1 := Bind(cx0', h.end);
    var (cx2, over) := NewLabel(cx1);
    var cx3 := EmitGoto(cx2, over);
    var f := TailCatch(cx3, h, over);
    TailUnfold(cx, h);
    CatchFails(cx3, h, over);
    JumpShape(cx2, JUMP, 0, over);
    BindFails(cx0', h.end);
    JumpShape(cx0, JUMP, 0, h.top);
    BindFails(cx, h.cont);
    var os1 := StepLand(b, cx, os, base, ins, loops, h.cont);
    var os2 := StepGoto(b, cx0, os1, base, ins, loops, h.top);
    var os3 := StepLand(b, cx0', os2, base, ins, loops, h.end);
    StepNewLabel(b, cx1, os3, base, ins, loops);
    var os4 := StepGoto(b, cx2, os3, base, ins, loops, over);
    SpreadsTrans(os, os1, os2, cx.top, cx0.top); SpreadsTrans(os, os2, os3, cx.top, cx0'.top);
    SpreadsTrans(os, os3, os4, cx.top, cx2.top);
    StepMark(b, cx3, os4, base, ins);
    var os5 := os4 + [Mark];

    HeadKept(b, cx, cx3, os, os5, h);
    os' := StepCatch(b, cx3, os5, base, ins, h, over);
    MarkedPrefix(os5, os', |b.items|, |cx3.items|);
    BindItems(cx, h.cont); BindItems(cx0', h.end);
    StepHandler(b, f, os', base, ins, Handler(h.tryStart, |cx3.items|, |cx3.items|, h.exc),
                Max(f.handlerMax, h.exc + 1));
  }

  lemma CatchFails(cx: Ctx, h: Head, over: nat)
    ensures cx.failed ==> TailCatch(cx, h, over).failed
  {
    hide EmitRegs; hide EmitJump;
    var (cx4, skip) := NewLabel(cx);
    var cx5 := EmitJump(cx4, JUMP_IF_TRUE, h.guard, skip);
    JumpShape(cx4, JUMP_IF_TRUE, h.guard, skip);
    RegsShape(cx5, ITERATOR_CLOSE, h.iter, 0, 0, 7);
    var cx6 := Bind(EmitReg3(cx5, ITERATOR_CLOSE, h.iter, 0, 0), skip);
    RegsShape(cx6, THROW, h.exc, 0, 0, 7);
  }

  lemma {:induction false} ListForOf(b: Ctx, lay: Layout, loops: seq<LoopCtx>, s: Stmt) returns (os: Ops)
    requires s.ForOf? && WfLayout(lay) && WfStmt(lay, s) && Small(b, lay.localsEnd)
             && forall r :: r in IterRegs(loops) ==> r < b.top
    requires !CompStmt(b, lay, loops, s).failed
    ensures Region(b, CompStmt(b, lay, loops, s), os, lay.localsEnd, IterRegs(loops))
    decreases s, 1
  {
    hide CompForOfHead; hide CompForOfTail;

    var base := lay.localsEnd;
    var ins := IterRegs(loops);
    var h := CompForOfHead(b, lay, s.x, s.rhs);
    var lc := LoopCtx(h.end, Some(h.cont), s.name, Some((h.iter, h.guard)));
    var b1 := CompStmt(h.cx, lay, loops + [lc], s.body1);

    assert b1.failed ==> CompForOfTail(b1, h).failed by {
      var cx0 := Bind(b1, h.cont);
      var cx1 := Bind(EmitGoto(cx0, h.top), h.end);
      var (cx2, over) := NewLabel(cx1);
      JumpShape(cx0, JUMP, 0, h.top);
      JumpShape(cx2, JUMP, 0, over);
      CatchFails(EmitGoto(cx2, over), h, over);
      TailUnfold(b1, h);
    }
    GrowStmt(h.cx, lay, loops + [lc], s.body1); FailsOn(h.cx, b1);
    var os1 := ListHead(b, lay, loops, s.x, s.rhs);
    assert Carried(b, h.cx, os1, ins, loops + [lc]) by {
      IterSnoc(loops, lc);
    }
    var os2 := StepStmt(b, h.cx, os1, ins, lay, loops + [lc], s.body1);
    CarriedKept(b, h.cx, b1, os1, os2, ins, loops);
    HeadKept(b, h.cx, b1, os1, os2, h);
    ExtItems(h.cx, b1, {});
    os := StepTail(b, b1, os2, base, ins, loops, h);
  }

  // ---- a unit -------------------------------------------------------------

  lemma ListUnit(lay: Layout, body: Stmts) returns (os: Ops)
    requires WfLayout(lay) && WfStmts(lay, body) && !CompUnit(lay, body).failed
    ensures Region(NewCtx(lay), CompUnit(lay, body), os, lay.localsEnd, {})
  {
    hide Region; hide CompStmts; hide Carried; hide WfStmts; hide Spreads;
    var b := NewCtx(lay);
    GrowStmts(b, lay, [], body);
    BeginStmt(b, lay.localsEnd, []);
    os := StepStmts(b, b, [], {}, lay, [], body);
  }
}
