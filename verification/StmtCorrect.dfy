/**
 Correctness of statement lowering, by induction over the evaluator: one lemma per
 statement form, all of the shape "the code between b and f does what the evaluator
 says" (`StmtFrame.Does`).
 */
module StmtCorrect {
  import opened Words
  import opened Machine
  import opened Assembly
  import opened Source
  import opened Lowering
  import opened Growth
  import opened Steps
  import opened ExprCorrect
  import opened StmtFrame
  import opened ForOfFrame
  import opened ForOfHead

  // A run that first comes back to a state at b and then does res does res.
  lemma Resume(m: Machine, F: Ctx, lay: Layout, b: Ctx, f: Ctx, loops: seq<LoopCtx>, bareB: bool, bareC: bool,
               res: SRes, fuel: nat, fuel': nat, s: State, n1: nat, s1: State, n2: nat, t: State, x: Exit)
    requires Runs(m, s, n1, s1) && Keep(lay, s.regs, s1.regs, b.top)
    requires Does(m, F, lay, b, f, loops, bareB, bareC, res, fuel, s1, n2, t, x)
    requires |b.items| <= |f.items| && fuel' <= n1 + fuel
    ensures Does(m, F, lay, b, f, loops, bareB, bareC, res, fuel', s, n1 + n2, t, x)
  {
    hide EffectAt; hide Runs; hide AtStub; hide Rel;
    if res.c.Normal? {
      RunsTrans(m, s, n1, s1, n2, t);
      KeepTrans(lay, s.regs, s1.regs, t.regs, b.top, b.top);
    } else {
      assert Nested(b, b, f, f);
      Abrupt(m, F, lay, b, b, f, f, loops, bareB, bareC, bareB, bareC, res, fuel, fuel', s, n1, s1, n2, t, x);
    }
  }

  lemma {:induction false} StmtOk(m: Machine, F: Ctx, lay: Layout, open: set<nat>, b: Ctx, loops: seq<LoopCtx>, s: Stmt,
                                  st: Store, s0: State, fuel: nat)
    returns (n: nat, t: State, x: Exit)
    requires WfStmt(lay, s) && Env(m, F, lay, open, b, CompStmt(b, lay, loops, s), loops) && At(b, lay, st, s0)
    ensures Does(m, F, lay, b, CompStmt(b, lay, loops, s), loops, BareBreak(s), BareContinue(s),
                 Execute(m.host, s, st, s0.tr, fuel), fuel, s0, n, t, x)
    decreases fuel, s, 3
  {
    hide Runs; hide EffectAt; hide Does; hide Ext; hide Env; hide CompForLoop;
    x := NoExit(b);
    match s
    case Empty =>
      RunsNone(m, s0);
      KeepRefl(lay, s0.regs, b.top);
      NormalDone(m, F, lay, b, b, loops, false, false, st, fuel, s0, 0, s0);
      n, t := 0, s0;
    case ExprStmt(e) => n, t := ExprStmtOk(m, F, lay, open, b, loops, s, st, s0, fuel);
    case Block(body) => n, t, x := StmtsOk(m, F, lay, open, b, loops, body, st, s0, fuel);
    case If(_, _, _) => n, t, x := IfOk(m, F, lay, open, b, loops, s, st, s0, fuel);
    case While(name, test, _) => n, t,
      x := ForLoopOk(m, F, lay, open, b, loops, Loop(s, name, Some(test), None), st, s0, fuel);
    case DoWhile(_, _, _) => n, t, x := DoWhileOk(m, F, lay, open, b, loops, s, st, s0, fuel);
    case For(_, _, _, _, _) => n, t, x := ForOk(m, F, lay, open, b, loops, s, st, s0, fuel);
    case ForOf(_, _, _, _) => n, t, x := ForOfOk(m, F, lay, open, b, loops, s, st, s0, fuel);
    case Labeled(_, _) => n, t, x := LabeledOk(m, F, lay, open, b, loops, s, st, s0, fuel);
    case Switch(_, _, _) => n, t, x := SwitchOk(m, F, lay, open, b, loops, s, st, s0, fuel);
    case Break(l) => n, t, x := JumpOutOk(m, F, lay, open, b, loops, s, st, s0, fuel);
    case Continue(l) => n, t, x := JumpOutOk(m, F, lay, open, b, loops, s, st, s0, fuel);
    case Return(arg) => n, t, x := ReturnOk(m, F, lay, open, b, loops, s, st, s0, fuel);
    case Throw(e) => n, t := ThrowOk(m, F, lay, open, b, loops, s, st, s0, fuel);
  }

  // ---- straight-line statements -----------------------------------------

  lemma ExprStmtOk(m: Machine, F: Ctx, lay: Layout, open: set<nat>, b: Ctx, loops: seq<LoopCtx>, s: Stmt, st: Store,
                   s0: State, fuel: nat)
    returns (n: nat, t: State)
    requires s.ExprStmt? && WfStmt(lay, s) && Env(m, F, lay, open, b, CompStmt(b, lay, loops, s), loops)
             && At(b, lay, st, s0)
    ensures Does(m, F, lay, b, CompStmt(b, lay, loops, s), loops, false, false,
                 Execute(m.host, s, st, s0.tr, fuel), fuel, s0, n, t, NoExit(b))
  {
    hide Runs; hide EffectAt; hide Does; hide Ext; hide Nested;
    var (f, r) := CompExpr(b, lay, s.e);
    var ev := Eval(m.host, s.e, st, s0.tr);
    GrowExpr(b, lay, s.e);
    ExtItems(b, f, {});
    n, t := ExprOk(m, F, lay, b, s.e, st, s0);
    RunsNone(m, s0);
    KeepRefl(lay, s0.regs, b.top);
    Whole(b, f);
    if ev.Thrown? {
      ExprThrows(m, F, lay, b, b, f, f, loops, false, false, r, ev, fuel, s0, 0, s0, n, t);
    } else {
      NormalDone(m, F, lay, b, f, loops, false, false, ev.st, fuel, s0, n, t);
    }
  }

  lemma ThrowOk(m: Machine, F: Ctx, lay: Layout, open: set<nat>, b: Ctx, loops: seq<LoopCtx>, s: Stmt, st: Store,
                s0: State, fuel: nat)
    returns (n: nat, t: State)
    requires s.Throw? && WfStmt(lay, s) && Env(m, F, lay, open, b, CompStmt(b, lay, loops, s), loops)
             && At(b, lay, st, s0)
    ensures Does(m, F, lay, b, CompStmt(b, lay, loops, s), loops, false, false,
                 Execute(m.host, s, st, s0.tr, fuel), fuel, s0, n, t, NoExit(b))
  {
    hide Runs; hide EffectAt; hide WidthAt; hide Ext; hide Nested; hide EmitRegs; hide EncodeRegs;
    var (b1, r) := CompExpr(b, lay, s.e);
    var f := EmitReg3(b1, THROW, r, 0, 0);
    var ev := Eval(m.host, s.e, st, s0.tr);
    GrowExpr(b, lay, s.e);
    RegsShape(b1, THROW, r, 0, 0, 7);
    PlainIn(b1, f, F);
    ExtTop(b, b1); ExtItems(b, b1, {});
    n, t := ExprOk(m, F, lay, b, s.e, st, s0);
    if ev.Value? {
      AtRegs(m, F, b1, THROW, r, 0, 0, 7, t);
    }
    assert f.handlers == b.handlers;
  }

  lemma {:induction false} StmtsOk(m: Machine, F: Ctx, lay: Layout, open: set<nat>, b: Ctx, loops: seq<LoopCtx>,
                                   ss: Stmts, st: Store, s0: State, fuel: nat)
    returns (n: nat, t: State, x: Exit)
    requires WfStmts(lay, ss) && Env(m, F, lay, open, b, CompStmts(b, lay, loops, ss), loops) && At(b, lay, st, s0)
    ensures Does(m, F, lay, b, CompStmts(b, lay, loops, ss), loops, BareBreakS(ss), BareContinueS(ss),
                 ExecAll(m.host, ss, st, s0.tr, fuel), fuel, s0, n, t, x)
    decreases fuel, ss, 0
  {
    hide Runs; hide EffectAt; hide Does; hide Ext; hide Env; hide CompStmt; hide Execute;
    RunsNone(m, s0);
    KeepRefl(lay, s0.regs, b.top);
    if ss.Nil? {
      NormalDone(m, F, lay, b, b, loops, false, false, st, fuel, s0, 0, s0);
      n, t, x := 0, s0, NoExit(b);
      return;
    }
    var b1 := CompStmt(b, lay, loops, ss.head);
    var f := CompStmts(b1, lay, loops, ss.tail);
    GrowStmt(b, lay, loops, ss.head);
    GrowStmts(b1, lay, loops, ss.tail);
    ExtRefl(b, {}); ExtRefl(f, {});
    SubRegion(m, F, lay, open, b, b, b1, f, loops, {}, {});
    SubRegion(m, F, lay, open, b, b1, f, f, loops, {}, {});
    n, t, x := StmtOk(m, F, lay, open, b, loops, ss.head, st, s0, fuel);
    var r := Execute(m.host, ss.head, st, s0.tr, fuel);
    if r.c.Normal? {
      DoesNormal(m, F, lay, b, b1, loops, BareBreak(ss.head), BareContinue(ss.head), r, fuel, s0, n, t, x);
      var n2, t2, x2 := StmtsOk(m, F, lay, open, b1, loops, ss.tail, r.st, t, fuel);
      var r2 := ExecAll(m.host, ss.tail, r.st, r.tr, fuel);
      Onward(m, F, lay, b, b1, f, f, loops, BareBreakS(ss.tail), BareContinueS(ss.tail), BareBreakS(ss),
             BareContinueS(ss),
             r2, fuel, fuel, s0, n, t, n2, t2, x2);
      n, t, x := n + n2, t2, x2;
    } else {
      Abrupt(m, F, lay, b, b, b1, f, loops, BareBreak(ss.head), BareContinue(ss.head), BareBreakS(ss),
             BareContinueS(ss),
             r, fuel, fuel, s0, 0, s0, n, t, x);
    }
  }

  // What a normal completion gives.
  lemma DoesNormal(m: Machine, F: Ctx, lay: Layout, b: Ctx, f: Ctx, loops: seq<LoopCtx>, bareB: bool, bareC: bool,
                   res: SRes, fuel: nat, s: State, n: nat, t: State, x: Exit)
    requires Does(m, F, lay, b, f, loops, bareB, bareC, res, fuel, s, n, t, x) && res.c.Normal?
    ensures Runs(m, s, n, t) && Keep(lay, s.regs, t.regs, b.top) && Rel(lay, res.st, t.regs)
    ensures t.pc == |f.items| && t.tr == res.tr
  {
    hide EffectAt; hide Runs;
  }

  // A prefix, then a last part that ends where the whole ends.
  lemma Onward(m: Machine, F: Ctx, lay: Layout, b: Ctx, bb: Ctx, ff: Ctx, f: Ctx, loops: seq<LoopCtx>,
               bareB: bool, bareC: bool, outB: bool, outC: bool,
               res: SRes, fuel: nat, fuel': nat, s: State, n1: nat, s1: State, n2: nat, t: State, x: Exit)
    requires Runs(m, s, n1, s1) && Keep(lay, s.regs, s1.regs, b.top)
    requires Does(m, F, lay, bb, ff, loops, bareB, bareC, res, fuel, s1, n2, t, x)
    requires Nested(b, bb, ff, f) && |ff.items| == |f.items|
    requires (bareB ==> outB) && (bareC ==> outC) && fuel' <= n1 + fuel
    ensures Does(m, F, lay, b, f, loops, outB, outC, res, fuel', s, n1 + n2, t, x)
  {
    hide EffectAt; hide Runs; hide AtStub; hide Rel; hide Uncovered;
    if res.c.Normal? {
      RunsTrans(m, s, n1, s1, n2, t);
      KeepTrans(lay, s.regs, s1.regs, t.regs, b.top, bb.top);
    } else {
      Abrupt(m, F, lay, b, bb, ff, f, loops, bareB, bareC, outB, outC, res, fuel, fuel', s, n1, s1, n2, t, x);
    }
  }

  // ---- if ---------------------------------------------------------------

  lemma {:induction false} IfOk(m: Machine, F: Ctx, lay: Layout, open: set<nat>, b: Ctx, loops: seq<LoopCtx>, s: Stmt,
                                st: Store, s0: State, fuel: nat)
    returns (n: nat, t: State, x: Exit)
    requires s.If? && WfStmt(lay, s) && Env(m, F, lay, open, b, CompStmt(b, lay, loops, s), loops) && At(b, lay, st, s0)
    ensures Does(m, F, lay, b, CompStmt(b, lay, loops, s), loops, BareBreak(s), BareContinue(s),
                 Execute(m.host, s, st, s0.tr, fuel), fuel, s0, n, t, x)
    decreases fuel, s, 1
  {
    hide Runs; hide EffectAt; hide Does; hide Ext; hide CompExpr; hide EmitJump; hide Bind; hide Nested; hide Rel;
    hide Keep; hide In; hide Env; hide Eval; hide Runs16;
    IfExec(m.host, s, st, s0.tr, fuel);
    hide CompStmt; hide Execute;
    var (b1, c) := CompExpr(b, lay, s.test);
    var (b2, elseL) := NewLabel(b1);
    var (b3, endL) := NewLabel(b2);
    var b4 := EmitJump(b3, JUMP_IF_FALSE, c, elseL);
    var b5 := CompStmt(b4, lay, loops, s.thn);
    var b6 := EmitGoto(b5, endL);
    var b7 := Bind(b6, elseL);
    var b8 := CompStmt(b7, lay, loops, s.els);
    var f := Bind(b8, endL);
    IfParts(m, F, lay, open, b, loops, s);
    EnvIn(m, F, lay, open, b, f, loops);
    x := NoExit(b);
    RunsNone(m, s0);
    KeepRefl(lay, s0.regs, b.top);
    var ev := Eval(m.host, s.test, st, s0.tr);
    n, t := ExprOk(m, F, lay, b, s.test, st, s0);
    if ev.Thrown? {
      ExprThrows(m, F, lay, b, b, b1, f, loops, BareBreak(s), BareContinue(s), c, ev, fuel, s0, 0, s0, n, t);
      return;
    }
    InTop(m, F, b1);
    DoBranch(m, F, b3, JUMP_IF_FALSE, c, elseL, t);
    var (bb, ff, body) := if Truthy(ev.v) then (b4, b5, s.thn) else (b7, b8, s.els);
    var t1 := State(|bb.items|, t.regs, t.tr);
    RunsTrans(m, s0, n, t, 1, t1);
    n := n + 1;
    var n2, t2;
    n2, t2, x := StmtOk(m, F, lay, open, bb, loops, body, ev.st, t1, fuel);
    var r := Execute(m.host, body, ev.st, ev.tr, fuel);
    if Truthy(ev.v) && r.c.Normal? {
      DoesNormal(m, F, lay, bb, ff, loops, BareBreak(body), BareContinue(body), r, fuel, t1, n2, t2, x);
      RunsTrans(m, s0, n, t1, n2, t2);
      DoGoto(m, F, b5, endL, t2);
      var t3 := State(|f.items|, t2.regs, t2.tr);
      RunsTrans(m, s0, n + n2, t2, 1, t3);
      KeepTrans(lay, s0.regs, t1.regs, t2.regs, b.top, bb.top);
      n, t, x := n + n2 + 1, t3, NoExit(b);
      NormalDone(m, F, lay, b, f, loops, BareBreak(s), BareContinue(s), r.st, fuel, s0, n, t3);
    } else if r.c.Normal? {
      Onward(m, F, lay, b, bb, ff, f, loops, BareBreak(body), BareContinue(body), BareBreak(s), BareContinue(s),
             r, fuel, fuel, s0, n, t1, n2, t2, x);
      n, t := n + n2, t2;
    } else {
      Abrupt(m, F, lay, b, bb, ff, f, loops, BareBreak(body), BareContinue(body), BareBreak(s), BareContinue(s),
             r, fuel, fuel, s0, n, t1, n2, t2, x);
      n, t := n + n2, t2;
    }
  }

  lemma IfExec(h: Host, s: Stmt, st: Store, tr: Trace, fuel: nat)
    requires s.If?
    ensures Execute(h, s, st, tr, fuel) ==
            var r := Eval(h, s.test, st, tr);
            if r.Thrown? then SRes(Thr(r.v), r.st, r.tr)
            else if Truthy(r.v) then Execute(h, s.thn, r.st, r.tr, fuel) else Execute(h, s.els, r.st, r.tr, fuel)
  {
    hide Eval;
  }

  // The stages of an `if` and what the parts may rely on.
  lemma IfParts(m: Machine, F: Ctx, lay: Layout, open: set<nat>, b: Ctx, loops: seq<LoopCtx>, s: Stmt)
    requires s.If? && Env(m, F, lay, open, b, CompStmt(b, lay, loops, s), loops)
    ensures var (b1, c) := CompExpr(b, lay, s.test);
            var (b2, elseL) := NewLabel(b1);
            var (b3, endL) := NewLabel(b2);
            var b4 := EmitJump(b3, JUMP_IF_FALSE, c, elseL);
            var b5 := CompStmt(b4, lay, loops, s.thn);
            var b6 := EmitGoto(b5, endL);
            var b7 := Bind(b6, elseL);
            var b8 := CompStmt(b7, lay, loops, s.els);
            var f := Bind(b8, endL);
            && In(b1, F) && In(b4, F) && In(b6, F)
            && b1.handlers == b.handlers && b.top <= c < b1.top && b1.top <= b4.top && b1.top <= b7.top
            && |b3.items| == |b1.items| && |b7.items| == |b6.items| && |f.items| == |b8.items|
            && elseL < |F.labels| && endL < |F.labels|
            && F.labels[elseL] == Some(|b7.items|) && F.labels[endL] == Some(|f.items|)
            && Env(m, F, lay, open, b4, b5, loops) && Env(m, F, lay, open, b7, b8, loops)
            && Nested(b, b, b1, f) && Nested(b, b4, b5, f) && Nested(b, b7, b8, f)
  {
    hide Ext; hide CompExpr; hide EmitJump; hide Env; hide Nested; hide Bind;
    var (b1, c) := CompExpr(b, lay, s.test);
    var (b2, elseL) := NewLabel(b1);
    var (b3, endL) := NewLabel(b2);
    var b4 := EmitJump(b3, JUMP_IF_FALSE, c, elseL);
    var b5 := CompStmt(b4, lay, loops, s.thn);
    var b6 := EmitGoto(b5, endL);
    var b7 := Bind(b6, elseL);
    var b8 := CompStmt(b7, lay, loops, s.els);
    var f := Bind(b8, endL);
    var all := {elseL, endL};
    EnvIn(m, F, lay, open, b, f, loops);
    GrowExpr(b, lay, s.test); GrowStmt(b4, lay, loops, s.thn); GrowStmt(b7, lay, loops, s.els);
    JumpShape(b3, JUMP_IF_FALSE, c, elseL); JumpShape(b5, JUMP, 0, endL);
    BindIn(b8, endL, F); ExtIn(b7, b8, {}, F); BindIn(b6, elseL, F); PlainIn(b5, b6, F); ExtIn(b4, b5, {}, F);
    PlainIn(b3, b4, F);
    // b .. b4
    ExtRefl(b, all); ThenExt(b, b, b1, all); ThenLabel(b, b1, all); ThenLabel(b, b2, all); ThenPlain(b, b3, b4, all);
    // b5 .. f and b .. b7
    ExtRefl(b5, all); ThenPlain(b5, b5, b6, all); ThenBind(b5, b6, elseL, all);
    ThenExt(b, b4, b5, all); ExtTrans(b, b5, b7, all);
    ThenExt(b5, b7, b8, all); ThenBind(b5, b8, endL, all);
    ExtRefl(b8, all); ThenBind(b8, b8, endL, all);
    // b1 .. f
    ExtRefl(b1, all); ThenLabel(b1, b1, all); ThenLabel(b1, b2, all); ThenPlain(b1, b3, b4, all);
    ThenExt(b1, b4, b5, all);
    ExtTrans(b1, b5, f, all);
    ExtRefl(b, {});
    ExtTop(b, b1); ExtTop(b4, b5);
    SubRegion(m, F, lay, open, b, b, b1, f, loops, {}, all);
    SubRegion(m, F, lay, open, b, b4, b5, f, loops, all, all);
    SubRegion(m, F, lay, open, b, b7, b8, f, loops, all, all);
  }

  // ---- loops ------------------------------------------------------------

  // How a loop body's completion continues: at the continuation point, at the end
  // of the loop, or past the loop.
  lemma AfterBody(m: Machine, F: Ctx, lay: Layout, bb: Ctx, ff: Ctx, loops: seq<LoopCtx>, lc: LoopCtx, body: Stmt,
                  res: SRes, fuel: nat, s: State, n: nat, t: State, x: Exit) returns (n': nat, t': State)
    requires Runs16(m, F)
    requires Does(m, F, lay, bb, ff, loops + [lc], BareBreak(body), BareContinue(body), res, fuel, s, n, t, x)
    requires lc.iter.None? && lc.cont.Some? && lc.brk < |F.labels| && lc.cont.value < |F.labels|
             && NameOk(lc.name, body)
    requires F.labels[lc.cont.value] == Some(|ff.items|)
    ensures Again(res.c, lc.name) ==>
              Runs(m, s, n', t') && Settled(lay, bb, res, s, t') && t'.pc == |ff.items| && t'.tr == res.tr
    ensures Leaves(res.c, lc.name) ==>
              Runs(m, s, n', t') && Settled(lay, bb, res, s, t') && t'.pc == F.labels[lc.brk].value && t'.tr == res.tr
    ensures !Again(res.c, lc.name) && !Leaves(res.c, lc.name) ==>
              !res.c.Normal? && Does(m, F, lay, bb, ff, loops, false, false, res, fuel, s, n, t, x)
  {
    hide Runs; hide EffectAt; hide AtStub; hide Rel; hide Keep; hide Uncovered; hide BareBreak; hide BareContinue;
    hide RPosition;
    n', t' := n, t;
    if Leaves(res.c, lc.name) {
      BreakHere(m, F, lay, bb, ff, loops, lc, BareBreak(body), BareContinue(body), res, fuel, s, n, t, x);
      n', t' := n + 1, State(F.labels[lc.brk].value, t.regs, res.tr);
    } else if res.c.Cont? && Again(res.c, lc.name) {
      ContinueHere(m, F, lay, bb, ff, loops, lc, BareBreak(body), BareContinue(body), res, fuel, s, n, t, x);
      n', t' := n + 1, State(|ff.items|, t.regs, res.tr);
    } else if !res.c.Normal? {
      PassThrough(m, F, lay, bb, ff, loops, lc, BareBreak(body), BareContinue(body), false, false, res, fuel, s, n, t,
                  x);
    }
  }

  // The stages of a loop with its test in front, and what they may rely on.
  lemma ForParts(m: Machine, F: Ctx, lay: Layout, open: set<nat>, b: Ctx, loops: seq<LoopCtx>, lp: Loop)
    requires lp.Ok() && Env(m, F, lay, open, b, lp.Comp(b, lay, loops), loops)
    ensures var (b1, top, cont, end) := LoopStart(b);
            var b2 := CompTest(b1, lay, lp.test, end);
            var loops1 := loops + [LoopCtx(end, Some(cont), lp.name, None)];
            var b3 := CompStmt(b2, lay, loops1, lp.s.body1);
            var b4 := Bind(b3, cont);
            var b5 := CompOpt(b4, lay, lp.update);
            var b6 := EmitGoto(b5, top);
            var f := Bind(b6, end);
            && In(EmitWords(b, [Instr(LOOP_HEADER, 0, 0, 0)]), F) && |b1.items| == |b.items| + 1 && b1.top == b.top
            && In(b2, F) && In(b5, F) && In(b6, F)
            && b1.handlers == b2.handlers && b1.top <= b2.top && b4.handlers == b5.handlers && b.top <= b4.top <= b5.top
            && |b4.items| == |b3.items| && |f.items| == |b6.items| && |b.items| <= |f.items|
            && top < |F.labels| && cont < |F.labels| && end < |F.labels|
            && F.labels[top] == Some(|b.items|) && F.labels[cont] == Some(|b3.items|)
            && F.labels[end] == Some(|f.items|)
            && Env(m, F, lay, open, b2, b3, loops1)
            && Nested(b, b1, b2, f) && Nested(b, b2, b3, f) && Nested(b, b4, b5, f)
  {
    hide Ext; hide CompTest; hide CompOpt; hide EmitJump; hide Env; hide Nested; hide Bind; hide LoopStart;
    var (b1, top, cont, end) := LoopStart(b);
    var b2 := CompTest(b1, lay, lp.test, end);
    var lc := LoopCtx(end, Some(cont), lp.name, None);
    var b3 := CompStmt(b2, lay, loops + [lc], lp.s.body1);
    var b4 := Bind(b3, cont);
    var b5 := CompOpt(b4, lay, lp.update);
    var b6 := EmitGoto(b5, top);
    var f := Bind(b6, end);
    var all := {|b.labels|, |b.labels| + 1, |b.labels| + 2};
    EnvIn(m, F, lay, open, b, f, loops);
    ExtLoopStart(b, all);
    GrowTest(b1, lay, lp.test, end); GrowStmt(b2, lay, loops + [lc], lp.s.body1); GrowOpt(b4, lay, lp.update);
    JumpShape(b5, JUMP, 0, top);
    BindIn(b6, end, F); PlainIn(b5, b6, F); ExtIn(b4, b5, {}, F); BindIn(b3, cont, F); ExtIn(b2, b3, {}, F);
    ExtIn(b1, b2, {}, F);
    LoopHeadIn(b, F);
    // b .. b2 .. b3 .. b4 .. b5 .. f
    ThenExt(b, b1, b2, all); ThenExt(b, b2, b3, all); ThenBind(b, b3, cont, all);
    ExtPlain(b5, b6, all); ThenBind(b5, b6, end, all);
    ExtRefl(b3, all); ThenBind(b3, b3, cont, all); ThenExt(b3, b4, b5, all); ExtTrans(b3, b5, f, all);
    ExtRefl(b2, all); ThenExt(b2, b2, b3, all); ExtTrans(b2, b3, f, all);
    ExtTrans(b, b2, f, all);
    ExtTop(b1, b2); ExtTop(b2, b3); ExtTop(b4, b5); ExtItems(b, f, all);
    LoopGrows(loops, lc, F, lay, b.top, b2.top);
    SubRegion(m, F, lay, open, b, b1, b2, f, loops, all, all);
    SubRegion(m, F, lay, open, b, b2, b3, f, loops, all, all);
    SubRegion(m, F, lay, open, b, b4, b5, f, loops, all, all);
    EnvLoops(m, F, lay, open, b2, b3, loops, loops + [lc]);
  }

  lemma LoopHeadIn(b: Ctx, F: Ctx)
    requires In(LoopStart(b).0, F)
    ensures In(EmitWords(b, [Instr(LOOP_HEADER, 0, 0, 0)]), F) && F.labels[|b.labels|] == Some(|b.items|)
  {
    var (f, top, cont, end) := LoopStart(b);
    assert f.labels == b.labels + [Some(|b.items|), None, None];
    forall l | 0 <= l < |b.labels| && b.labels[l].Some? ensures F.labels[l] == b.labels[l] {
      assert f.labels[l] == b.labels[l];
    }
    assert f.labels[|b.labels|] == Some(|b.items|);
  }

  // A `while`, or a `for` past its initializer.
  datatype Loop = Loop(s: Stmt, name: Option<Source.Label>, test: Option<Expr>, update: Option<Expr>) {
    predicate Ok() {
      (s.While? && name == s.name && test == Some(s.test) && update == None)
      || (s.For? && name == s.name && test == s.cond && update == s.update)
    }

    function Comp(b: Ctx, lay: Layout, loops: seq<LoopCtx>): Ctx
      requires Ok()
    {
      CompForLoop(b, lay, loops, name, test, update, s)
    }

    function Exec(h: Host, st: Store, tr: Trace, fuel: nat): SRes
      requires Ok()
    {
      if s.While? then Execute(h, s, st, tr, fuel) else ExecFor(h, s, st, tr, fuel)
    }

    // One round of the loop, in the evaluator.
    lemma Unfold(h: Host, st: Store, tr: Trace, fuel: nat)
      requires Ok()
      ensures Exec(h, st, tr, fuel) ==
              if fuel == 0 then SRes(OutOfFuel, st, tr) else
              var c := OptEval(h, test, st, tr);
              if c.Thrown? then SRes(Thr(c.v), c.st, c.tr)
              else if !Truthy(c.v) then SRes(Normal, c.st, c.tr)
              else
                var r := Execute(h, s.body1, c.st, c.tr, fuel);
                if Again(r.c, name) then
                  var u := OptEval(h, update, r.st, r.tr);
                  if u.Thrown? then SRes(Thr(u.v), u.st, u.tr) else Exec(h, u.st, u.tr, fuel - 1)
                else if Leaves(r.c, name) then SRes(Normal, r.st, r.tr) else r
    {
    }
  }

  // A missing test is true, a missing update does nothing.
  function OptEval(h: Host, e: Option<Expr>, st: Store, tr: Trace): ERes {
    if e.None? then Value(Bool(true), st, tr) else Eval(h, e.value, st, tr)
  }

  lemma OptOk(m: Machine, F: Ctx, lay: Layout, b: Ctx, e: Option<Expr>, st: Store, s: State)
    returns (n: nat, t: State, r: nat)
    requires World(m, F, lay) && WfOpt(lay, e) && In(CompOpt(b, lay, e), F) && At(b, lay, st, s)
    ensures var ev := OptEval(m.host, e, st, s.tr);
            && Runs(m, s, n, t) && Keep(lay, s.regs, t.regs, b.top) && Rel(lay, ev.st, t.regs)
            && (ev.Value? ==> t.pc == |CompOpt(b, lay, e).items| && t.tr == ev.tr)
            && (ev.Thrown? ==> Computes(m, lay, b, CompOpt(b, lay, e), r, ev, s, n, t))
  {
    hide Runs; hide EffectAt;
    if e.Some? {
      n, t := ExprOk(m, F, lay, b, e.value, st, s);
      r := CompExpr(b, lay, e.value).1;
    } else {
      RunsNone(m, s);
      n, t, r := 0, s, 0;
    }
  }

  lemma TestOk(m: Machine, F: Ctx, lay: Layout, b: Ctx, e: Option<Expr>, end: nat, st: Store, s: State)
    returns (n: nat, t: State, r: nat)
    requires World(m, F, lay) && WfOpt(lay, e) && In(CompTest(b, lay, e, end), F) && At(b, lay, st, s)
             && end < |F.labels|
    ensures var ev := OptEval(m.host, e, st, s.tr);
            && Runs(m, s, n, t) && Keep(lay, s.regs, t.regs, b.top) && Rel(lay, ev.st, t.regs)
            && (ev.Value? ==>
                  t.pc == (if Truthy(ev.v) then |CompTest(b, lay, e, end).items| else F.labels[end].value)
                  && t.tr == ev.tr)
            && (ev.Thrown? ==> Computes(m, lay, b, CompTest(b, lay, e, end), r, ev, s, n, t))
  {
    hide Runs; hide EffectAt; hide EmitJump; hide Rel; hide Keep; hide CompExpr; hide Ext; hide Eval;
    if e.Some? {
      var (b1, c) := CompExpr(b, lay, e.value);
      var f := EmitJump(b1, JUMP_IF_FALSE, c, end);
      GrowExpr(b, lay, e.value);
      JumpShape(b1, JUMP_IF_FALSE, c, end);
      PlainIn(b1, f, F);
      n, t := ExprOk(m, F, lay, b, e.value, st, s);
      r := c;
      var ev := Eval(m.host, e.value, st, s.tr);
      if ev.Value? {
        DoBranch(m, F, b1, JUMP_IF_FALSE, c, end, t);
        var pc := if Truthy(ev.v) then |f.items| else F.labels[end].value;
        RunsTrans(m, s, n, t, 1, State(pc, t.regs, t.tr));
        n, t := n + 1, State(pc, t.regs, t.tr);
      } else {
        ThrownIn(m, lay, b, b1, f, c, c, ev, s, n, t);
      }
    } else {
      RunsNone(m, s);
      KeepRefl(lay, s.regs, b.top);
      n, t, r := 0, s, 0;
    }
  }

  lemma {:induction false} ForLoopOk(m: Machine, F: Ctx, lay: Layout, open: set<nat>, b: Ctx, loops: seq<LoopCtx>,
                                     lp: Loop, st: Store, s0: State, fuel: nat)
    returns (n: nat, t: State, x: Exit)
    requires lp.Ok() && WfStmt(lay, lp.s) && Env(m, F, lay, open, b, lp.Comp(b, lay, loops), loops)
             && At(b, lay, st, s0)
    ensures Does(m, F, lay, b, lp.Comp(b, lay, loops), loops, false, false, lp.Exec(m.host, st, s0.tr, fuel), fuel, s0,
                 n, t, x)
    decreases fuel, lp.s, 1
  {
    hide Runs; hide EffectAt; hide Does; hide Ext; hide CompOpt; hide CompTest; hide EmitJump; hide Bind; hide Nested;
    hide Rel; hide Keep;
    hide LoopStart; hide BareBreak; hide BareContinue; hide Env; hide In; hide Loop.Exec; hide OptEval; hide Eval;
    RunsNone(m, s0);
    lp.Unfold(m.host, st, s0.tr, fuel);
    x := NoExit(b);
    n, t := 0, s0;
    var f := lp.Comp(b, lay, loops);
    if fuel == 0 {
      OutOfFuelDone(m, F, lay, b, f, loops, st, s0);
      return;
    }
    var (b1, top, cont, end) := LoopStart(b);
    var b2 := CompTest(b1, lay, lp.test, end);
    ForParts(m, F, lay, open, b, loops, lp);
    EnvIn(m, F, lay, open, b, f, loops);
    DoHeader(m, F, b, s0);
    var s1 := State(|b1.items|, s0.regs, s0.tr);
    KeepRefl(lay, s0.regs, b.top);
    var ev := OptEval(m.host, lp.test, st, s0.tr);
    var r;
    n, t, r := TestOk(m, F, lay, b1, lp.test, end, st, s1);
    RunsTrans(m, s0, 1, s1, n, t);
    if ev.Thrown? {
      ExprThrows(m, F, lay, b, b1, b2, f, loops, false, false, r, ev, fuel, s0, 1, s1, n, t);
      n := 1 + n;
    } else if !Truthy(ev.v) {
      NormalDone(m, F, lay, b, f, loops, false, false, ev.st, fuel, s0, 1 + n, t);
      n := 1 + n;
    } else {
      var n2, t2, x2 := ForBodyOk(m, F, lay, open, b, loops, lp, ev.st, t, fuel);
      Resume(m, F, lay, b, f, loops, false, false, lp.Exec(m.host, st, s0.tr, fuel), fuel - 1, fuel, s0, 1 + n, t, n2,
             t2, x2);
      n, t, x := 1 + n + n2, t2, x2;
    }
  }

  // The loop from its body on, the test having succeeded.
  function BodyExec(h: Host, lp: Loop, st: Store, tr: Trace, fuel: nat): SRes
    requires lp.Ok() && fuel > 0
  {
    var r := Execute(h, lp.s.body1, st, tr, fuel);
    if Again(r.c, lp.name) then
      var u := OptEval(h, lp.update, r.st, r.tr);
      if u.Thrown? then SRes(Thr(u.v), u.st, u.tr) else lp.Exec(h, u.st, u.tr, fuel - 1)
    else if Leaves(r.c, lp.name) then SRes(Normal, r.st, r.tr) else r
  }

  lemma {:induction false} ForBodyOk(m: Machine, F: Ctx, lay: Layout, open: set<nat>, b: Ctx, loops: seq<LoopCtx>,
                                     lp: Loop, st: Store, s0: State, fuel: nat)
    returns (n: nat, t: State, x: Exit)
    requires lp.Ok() && WfStmt(lay, lp.s) && Env(m, F, lay, open, b, lp.Comp(b, lay, loops), loops) && fuel > 0
    requires Rel(lay, st, s0.regs) && lay.localsEnd < b.top
    requires var (b1, _, _, end) := LoopStart(b); s0.pc == |CompTest(b1, lay, lp.test, end).items|
    ensures Does(m, F, lay, b, lp.Comp(b, lay, loops), loops, false, false,
                 BodyExec(m.host, lp, st, s0.tr, fuel), fuel - 1, s0, n, t, x)
    decreases fuel, lp.s, 0
  {
    hide Runs; hide EffectAt; hide Does; hide Ext; hide CompOpt; hide CompTest; hide EmitJump; hide Bind; hide Nested;
    hide Rel; hide Keep;
    hide LoopStart; hide BareBreak; hide BareContinue; hide Env; hide In; hide Loop.Exec; hide OptEval; hide Execute;
    var (b1, top, cont, end) := LoopStart(b);
    var b2 := CompTest(b1, lay, lp.test, end);
    var lc := LoopCtx(end, Some(cont), lp.name, None);
    var b3 := CompStmt(b2, lay, loops + [lc], lp.s.body1);
    var b4 := Bind(b3, cont);
    var b5 := CompOpt(b4, lay, lp.update);
    var f := lp.Comp(b, lay, loops);
    ForParts(m, F, lay, open, b, loops, lp);
    EnvIn(m, F, lay, open, b, f, loops);
    RunsNone(m, s0);
    KeepRefl(lay, s0.regs, b.top);
    var r := Execute(m.host, lp.s.body1, st, s0.tr, fuel);
    n, t, x := StmtOk(m, F, lay, open, b2, loops + [lc], lp.s.body1, st, s0, fuel);
    var n3, t3 := AfterBody(m, F, lay, b2, b3, loops, lc, lp.s.body1, r, fuel, s0, n, t, x);
    if !Again(r.c, lp.name) && !Leaves(r.c, lp.name) {
      Abrupt(m, F, lay, b, b2, b3, f, loops, false, false, false, false, r, fuel, fuel - 1, s0, 0, s0, n, t, x);
      return;
    }
    KeepTrans(lay, s0.regs, s0.regs, t3.regs, b.top, b2.top);
    n, t, x := n3, t3, NoExit(b);
    if Leaves(r.c, lp.name) {
      NormalDone(m, F, lay, b, f, loops, false, false, r.st, fuel - 1, s0, n, t);
      return;
    }
    var u := OptEval(m.host, lp.update, r.st, r.tr);
    var n4, t4, q := OptOk(m, F, lay, b4, lp.update, r.st, t);
    if u.Thrown? {
      ExprThrows(m, F, lay, b, b4, b5, f, loops, false, false, q, u, fuel - 1, s0, n, t, n4, t4);
      n, t := n + n4, t4;
      return;
    }
    RunsTrans(m, s0, n, t, n4, t4);
    KeepTrans(lay, s0.regs, t.regs, t4.regs, b.top, b4.top);
    DoGoto(m, F, b5, top, t4);
    var s2 := State(|b.items|, t4.regs, t4.tr);
    RunsTrans(m, s0, n + n4, t4, 1, s2);
    var n5, t5, x5 := ForLoopOk(m, F, lay, open, b, loops, lp, u.st, s2, fuel - 1);
    Resume(m, F, lay, b, f, loops, false, false, lp.Exec(m.host, u.st, u.tr, fuel - 1), fuel - 1, fuel - 1, s0,
           n + n4 + 1, s2, n5, t5, x5);
    n, t, x := n + n4 + 1 + n5, t5, x5;
  }

  lemma {:induction false} ForOk(m: Machine, F: Ctx, lay: Layout, open: set<nat>, b: Ctx, loops: seq<LoopCtx>, s: Stmt,
                                 st: Store, s0: State, fuel: nat)
    returns (n: nat, t: State, x: Exit)
    requires s.For? && WfStmt(lay, s) && Env(m, F, lay, open, b, CompStmt(b, lay, loops, s), loops)
             && At(b, lay, st, s0)
    ensures Does(m, F, lay, b, CompStmt(b, lay, loops, s), loops, false, false,
                 Execute(m.host, s, st, s0.tr, fuel), fuel, s0, n, t, x)
    decreases fuel, s, 2
  {
    hide Runs; hide EffectAt; hide Does; hide Ext; hide CompOpt; hide CompForLoop; hide Nested; hide Rel; hide Keep;
    hide Env; hide In; hide ExecFor; hide Eval;
    var lp := Loop(s, s.name, s.cond, s.update);
    var b0 := CompOpt(b, lay, s.init);
    var f := lp.Comp(b0, lay, loops);
    EnvIn(m, F, lay, open, b, f, loops);
    GrowOpt(b, lay, s.init);
    GrowForLoop(b0, lay, loops, s.name, s.cond, s.update, s);
    ExtRefl(b, {}); ExtRefl(f, {});
    SubRegion(m, F, lay, open, b, b, b0, f, loops, {}, {});
    SubRegion(m, F, lay, open, b, b0, f, f, loops, {}, {});
    ExtIn(b0, f, {}, F);
    ExtTop(b, b0);
    assert !b0.failed by { InOk(b0, F); }
    RunsNone(m, s0);
    KeepRefl(lay, s0.regs, b.top);
    var ev := OptEval(m.host, s.init, st, s0.tr);
    var r;
    n, t, r := OptOk(m, F, lay, b, s.init, st, s0);
    x := NoExit(b);
    if ev.Thrown? {
      ExprThrows(m, F, lay, b, b, b0, f, loops, false, false, r, ev, fuel, s0, 0, s0, n, t);
    } else {
      var n2, t2;
      n2, t2, x := ForLoopOk(m, F, lay, open, b0, loops, lp, ev.st, t, fuel);
      Onward(m, F, lay, b, b0, f, f, loops, false, false, false, false, lp.Exec(m.host, ev.st, ev.tr, fuel), fuel, fuel,
             s0, n, t, n2, t2, x);
      n, t := n + n2, t2;
    }
  }

  // ---- do-while ---------------------------------------------------------

  // The stages of a `do-while` and what they may rely on.
  lemma DoWhileParts(m: Machine, F: Ctx, lay: Layout, open: set<nat>, b: Ctx, loops: seq<LoopCtx>, s: Stmt)
    requires s.DoWhile? && Env(m, F, lay, open, b, CompStmt(b, lay, loops, s), loops)
    ensures var (b1, top, cont, end) := LoopStart(b);
            var loops1 := loops + [LoopCtx(end, Some(cont), s.name, None)];
            var b2 := CompStmt(b1, lay, loops1, s.body1);
            var b3 := Bind(b2, cont);
            var (b4, c) := CompExpr(b3, lay, s.test);
            var b5 := EmitJump(b4, JUMP_IF_TRUE, c, top);
            var f := Bind(b5, end);
            && In(EmitWords(b, [Instr(LOOP_HEADER, 0, 0, 0)]), F) && |b1.items| == |b.items| + 1 && b1.top == b.top
            && In(b2, F) && In(b4, F) && In(b5, F)
            && b3.handlers == b4.handlers && b.top <= b3.top <= c < b4.top
            && |b3.items| == |b2.items| && |f.items| == |b5.items| && |b.items| <= |f.items|
            && top < |F.labels| && cont < |F.labels| && end < |F.labels|
            && F.labels[top] == Some(|b.items|) && F.labels[cont] == Some(|b2.items|)
            && F.labels[end] == Some(|f.items|)
            && Env(m, F, lay, open, b1, b2, loops1)
            && Nested(b, b1, b2, f) && Nested(b, b3, b4, f)
  {
    hide Ext; hide CompExpr; hide EmitJump; hide Env; hide Nested; hide Bind; hide LoopStart;
    var (b1, top, cont, end) := LoopStart(b);
    var lc := LoopCtx(end, Some(cont), s.name, None);
    var b2 := CompStmt(b1, lay, loops + [lc], s.body1);
    var b3 := Bind(b2, cont);
    var (b4, c) := CompExpr(b3, lay, s.test);
    var b5 := EmitJump(b4, JUMP_IF_TRUE, c, top);
    var f := Bind(b5, end);
    var all := {|b.labels|, |b.labels| + 1, |b.labels| + 2};
    EnvIn(m, F, lay, open, b, f, loops);
    ExtLoopStart(b, all);
    GrowStmt(b1, lay, loops + [lc], s.body1); GrowExpr(b3, lay, s.test);
    JumpShape(b4, JUMP_IF_TRUE, c, top);
    BindIn(b5, end, F); PlainIn(b4, b5, F); ExtIn(b3, b4, {}, F); BindIn(b2, cont, F); ExtIn(b1, b2, {}, F);
    LoopHeadIn(b, F);
    ThenExt(b, b1, b2, all); ThenBind(b, b2, cont, all);
    ExtPlain(b4, b5, all); ThenBind(b4, b5, end, all);
    ExtRefl(b2, all); ThenBind(b2, b2, cont, all); ThenExt(b2, b3, b4, all); ExtTrans(b2, b4, f, all);
    ExtTrans(b, b2, f, all);
    ExtTop(b1, b2); ExtItems(b, f, all);
    LoopGrows(loops, lc, F, lay, b.top, b1.top);
    SubRegion(m, F, lay, open, b, b1, b2, f, loops, all, all);
    SubRegion(m, F, lay, open, b, b3, b4, f, loops, all, all);
    EnvLoops(m, F, lay, open, b1, b2, loops, loops + [lc]);
  }

  lemma {:induction false} DoWhileOk(m: Machine, F: Ctx, lay: Layout, open: set<nat>, b: Ctx, loops: seq<LoopCtx>,
                                     s: Stmt, st: Store, s0: State, fuel: nat)
    returns (n: nat, t: State, x: Exit)
    requires s.DoWhile? && WfStmt(lay, s) && Env(m, F, lay, open, b, CompStmt(b, lay, loops, s), loops)
             && At(b, lay, st, s0)
    ensures Does(m, F, lay, b, CompStmt(b, lay, loops, s), loops, false, false,
                 Execute(m.host, s, st, s0.tr, fuel), fuel, s0, n, t, x)
    decreases fuel, s, 1
  {
    hide Runs; hide EffectAt; hide Does; hide Ext; hide EmitJump; hide Bind; hide Nested; hide Rel; hide Keep;
    hide CompExpr;
    hide LoopStart; hide BareBreak; hide BareContinue; hide Env; hide In; hide Eval;
    RunsNone(m, s0);
    x := NoExit(b);
    n, t := 0, s0;
    var f := CompStmt(b, lay, loops, s);
    if fuel == 0 {
      OutOfFuelDone(m, F, lay, b, f, loops, st, s0);
      return;
    }
    var (b1, top, cont, end) := LoopStart(b);
    var lc := LoopCtx(end, Some(cont), s.name, None);
    var b2 := CompStmt(b1, lay, loops + [lc], s.body1);
    var b3 := Bind(b2, cont);
    var (b4, c) := CompExpr(b3, lay, s.test);
    DoWhileParts(m, F, lay, open, b, loops, s);
    EnvIn(m, F, lay, open, b, f, loops);
    DoHeader(m, F, b, s0);
    var s1 := State(|b1.items|, s0.regs, s0.tr);
    KeepRefl(lay, s0.regs, b.top);
    var r := Execute(m.host, s.body1, st, s0.tr, fuel);
    n, t, x := StmtOk(m, F, lay, open, b1, loops + [lc], s.body1, st, s1, fuel);
    var n3, t3 := AfterBody(m, F, lay, b1, b2, loops, lc, s.body1, r, fuel, s1, n, t, x);
    if !Again(r.c, s.name) && !Leaves(r.c, s.name) {
      Abrupt(m, F, lay, b, b1, b2, f, loops, false, false, false, false, r, fuel, fuel, s0, 1, s1, n, t, x);
      n := 1 + n;
      return;
    }
    RunsTrans(m, s0, 1, s1, n3, t3);
    KeepTrans(lay, s0.regs, s1.regs, t3.regs, b.top, b1.top);
    n, t, x := 1 + n3, t3, NoExit(b);
    if Leaves(r.c, s.name) {
      NormalDone(m, F, lay, b, f, loops, false, false, r.st, fuel, s0, n, t);
      return;
    }
    n, t, x := DoWhileTestOk(m, F, lay, open, b, loops, s, r.st, s0, n, t, fuel);
  }

  // The test of a `do-while` and what follows it, n steps into a round.
  lemma {:induction false} DoWhileTestOk(m: Machine, F: Ctx, lay: Layout, open: set<nat>, b: Ctx, loops: seq<LoopCtx>,
                                         s: Stmt, st: Store, s0: State, n1: nat, s1: State, fuel: nat)
    returns (n: nat, t: State, x: Exit)
    requires s.DoWhile? && WfStmt(lay, s) && Env(m, F, lay, open, b, CompStmt(b, lay, loops, s), loops) && fuel > 0
    requires Rel(lay, st, s1.regs) && lay.localsEnd < b.top
    requires Runs(m, s0, n1, s1) && Keep(lay, s0.regs, s1.regs, b.top) && n1 > 0
    requires var (b1, _, cont, end) := LoopStart(b);
             s1.pc == |CompStmt(b1, lay, loops + [LoopCtx(end, Some(cont), s.name, None)], s.body1).items|
    ensures var ev := Eval(m.host, s.test, st, s1.tr);
            Does(m, F, lay, b, CompStmt(b, lay, loops, s), loops, false, false,
                 if ev.Thrown? then SRes(Thr(ev.v), ev.st, ev.tr)
                 else if Truthy(ev.v) then Execute(m.host, s, ev.st, ev.tr, fuel - 1)
                 else SRes(Normal, ev.st, ev.tr), fuel, s0, n, t, x)
    decreases fuel, s, 0
  {
    hide Runs; hide EffectAt; hide Does; hide Ext; hide EmitJump; hide Bind; hide Nested; hide Rel; hide Keep;
    hide CompExpr;
    hide LoopStart; hide BareBreak; hide BareContinue; hide Env; hide In; hide Eval; hide Execute;
    var f := CompStmt(b, lay, loops, s);
    var (b1, top, cont, end) := LoopStart(b);
    var lc := LoopCtx(end, Some(cont), s.name, None);
    var b2 := CompStmt(b1, lay, loops + [lc], s.body1);
    var b3 := Bind(b2, cont);
    var (b4, c) := CompExpr(b3, lay, s.test);
    DoWhileParts(m, F, lay, open, b, loops, s);
    EnvIn(m, F, lay, open, b, f, loops);
    x := NoExit(b);
    var ev := Eval(m.host, s.test, st, s1.tr);
    n, t := ExprOk(m, F, lay, b3, s.test, st, s1);
    if ev.Thrown? {
      ExprThrows(m, F, lay, b, b3, b4, f, loops, false, false, c, ev, fuel, s0, n1, s1, n, t);
      n := n1 + n;
      return;
    }
    RunsTrans(m, s0, n1, s1, n, t);
    KeepTrans(lay, s0.regs, s1.regs, t.regs, b.top, b3.top);
    InTop(m, F, b4);
    DoBranch(m, F, b4, JUMP_IF_TRUE, c, top, t);
    var t1 := State(if Truthy(ev.v) then |b.items| else |f.items|, t.regs, t.tr);
    RunsTrans(m, s0, n1 + n, t, 1, t1);
    n, t := n1 + n + 1, t1;
    if Truthy(ev.v) {
      var n2, t2, x2 := DoWhileOk(m, F, lay, open, b, loops, s, ev.st, t1, fuel - 1);
      Resume(m, F, lay, b, f, loops, false, false, Execute(m.host, s, ev.st, ev.tr, fuel - 1), fuel - 1, fuel, s0, n,
             t1, n2, t2, x2);
      n, t, x := n + n2, t2, x2;
    } else {
      NormalDone(m, F, lay, b, f, loops, false, false, ev.st, fuel, s0, n, t);
    }
  }

  // ---- labels and jumps -------------------------------------------------

  lemma {:induction false} LabeledOk(m: Machine, F: Ctx, lay: Layout, open: set<nat>, b: Ctx, loops: seq<LoopCtx>,
                                     s: Stmt, st: Store, s0: State, fuel: nat)
    returns (n: nat, t: State, x: Exit)
    requires s.Labeled? && WfStmt(lay, s) && Env(m, F, lay, open, b, CompStmt(b, lay, loops, s), loops)
             && At(b, lay, st, s0)
    ensures Does(m, F, lay, b, CompStmt(b, lay, loops, s), loops, BareBreak(s), BareContinue(s),
                 Execute(m.host, s, st, s0.tr, fuel), fuel, s0, n, t, x)
    decreases fuel, s, 1
  {
    hide Runs; hide EffectAt; hide Does; hide Ext; hide Bind; hide Nested; hide Rel; hide Keep; hide Env; hide In;
    hide RPosition;
    var (b1, end) := NewLabel(b);
    var lc := LoopCtx(end, None, Some(s.lab), None);
    var b2 := CompStmt(b1, lay, loops + [lc], s.body1);
    var f := Bind(b2, end);
    EnvIn(m, F, lay, open, b, f, loops);
    GrowStmt(b1, lay, loops + [lc], s.body1);
    BindIn(b2, end, F);
    ExtRefl(b, {end}); ThenLabel(b, b, {end});
    ExtRefl(b2, {end}); ThenBind(b2, b2, end, {end});
    SubRegion(m, F, lay, open, b, b1, b2, f, loops, {end}, {end});
    LoopGrows(loops, lc, F, lay, b.top, b1.top);
    EnvLoops(m, F, lay, open, b1, b2, loops, loops + [lc]);
    RunsNone(m, s0);
    KeepRefl(lay, s0.regs, b.top);
    n, t, x := StmtOk(m, F, lay, open, b1, loops + [lc], s.body1, st, s0, fuel);
    var r := Execute(m.host, s.body1, st, s0.tr, fuel);
    if r.c == Brk(Some(s.lab)) {
      BreakHere(m, F, lay, b1, b2, loops, lc, BareBreak(s), BareContinue(s), r, fuel, s0, n, t, x);
      var t1 := State(|f.items|, t.regs, r.tr);
      n, t, x := n + 1, t1, NoExit(b);
      NormalDone(m, F, lay, b, f, loops, BareBreak(s), BareContinue(s), r.st, fuel, s0, n, t1);
    } else {
      NotContinued(m, F, lay, b1, b2, loops, lc, BareBreak(s), BareContinue(s), r, fuel, s0, n, t, x);
      PassThrough(m, F, lay, b1, b2, loops, lc, BareBreak(s), BareContinue(s), BareBreak(s), BareContinue(s), r, fuel,
                  s0, n, t, x);
      Onward(m, F, lay, b, b1, b2, f, loops, BareBreak(s), BareContinue(s), BareBreak(s), BareContinue(s), r, fuel,
             fuel, s0, 0, s0, n, t, x);
    }
  }

  // A continue never aims at an entry without a continuation point.
  lemma NotContinued(m: Machine, F: Ctx, lay: Layout, b: Ctx, f: Ctx, loops: seq<LoopCtx>, lc: LoopCtx, bareB: bool,
                     bareC: bool,
                     res: SRes, fuel: nat, s: State, n: nat, t: State, x: Exit)
    requires Does(m, F, lay, b, f, loops + [lc], bareB, bareC, res, fuel, s, n, t, x) && lc.cont.None?
    ensures res.c.Cont? ==> !Resolves(lc, res.c.lbl, true)
  {
    hide EffectAt; hide Runs; hide AtStub; hide Settled; hide Uncovered;
    if res.c.Cont? {
      RPositionSnoc(loops, lc, res.c.lbl, true);
    }
  }

  // A stub at the end of a region without handlers of its own.
  lemma FreshStub(m: Machine, F: Ctx, b: Ctx, f: Ctx, pend: seq<LoopCtx>, x: Exit, t: State)
    requires f.handlers == b.handlers && f == StubEnd(x, pend) && In(f, F)
    requires |b.items| <= |x.c.items| && b.top <= x.c.top && t.pc == |x.c.items|
    requires x.fin.FJump? ==> x.fin.l < |F.labels|
    requires x.fin.FRet? ==> b.top <= x.fin.r < x.c.top
    ensures AtStub(m, F, b, f, pend, x, t)
  {
    hide EffectAt; hide Runs; hide StubEnd;
    forall u: State, w, tr | |x.c.items| <= u.pc < |f.items| && EffectAt(m, u) == Raise(w, tr)
      ensures Escaping(m, b, f, u, w, tr)
    {
      RunsNone(m, u);
      assert EscapesTo(m, b, f, u, w, tr, 0, u);
    }
  }

  lemma JumpOutOk(m: Machine, F: Ctx, lay: Layout, open: set<nat>, b: Ctx, loops: seq<LoopCtx>, s: Stmt, st: Store,
                  s0: State, fuel: nat)
    returns (n: nat, t: State, x: Exit)
    requires (s.Break? || s.Continue?) && Env(m, F, lay, open, b, CompStmt(b, lay, loops, s), loops)
             && At(b, lay, st, s0)
    ensures Does(m, F, lay, b, CompStmt(b, lay, loops, s), loops, BareBreak(s), BareContinue(s),
                 Execute(m.host, s, st, s0.tr, fuel), fuel, s0, n, t, x)
  {
    hide Runs; hide EffectAt; hide AtStub; hide EmitCloses; hide EmitJump; hide In; hide RPosition; hide Rel;
    var f := CompStmt(b, lay, loops, s);
    EnvIn(m, F, lay, open, b, f, loops);
    InOk(f, F);
    var p := RPosition(loops, s.lbl, s.Continue?).value;
    var pend := if s.Break? then loops[p..] else loops[p + 1..];
    var fin := FJump(if s.Break? then loops[p].brk else loops[p].cont.value);
    x := Exit(b, fin);
    n, t := 0, s0;
    RunsNone(m, s0);
    PlainCloses(b, pend);
    PlainJump(EmitCloses(b, pend), JUMP, 0, fin.l);
    FreshStub(m, F, b, f, pend, x, s0);
  }

  lemma ReturnOk(m: Machine, F: Ctx, lay: Layout, open: set<nat>, b: Ctx, loops: seq<LoopCtx>, s: Stmt, st: Store,
                 s0: State, fuel: nat)
    returns (n: nat, t: State, x: Exit)
    requires s.Return? && WfStmt(lay, s) && Env(m, F, lay, open, b, CompStmt(b, lay, loops, s), loops)
             && At(b, lay, st, s0)
    ensures Does(m, F, lay, b, CompStmt(b, lay, loops, s), loops, false, false,
                 Execute(m.host, s, st, s0.tr, fuel), fuel, s0, n, t, x)
  {
    hide Runs; hide EffectAt; hide AtStub; hide EmitCloses; hide EmitRegs; hide In; hide Rel; hide Keep; hide Ext;
    hide CompReturnValue;
    hide Eval; hide Uncovered; hide Nested;
    var f := CompStmt(b, lay, loops, s);
    var (b1, v) := CompReturnValue(b, lay, s.arg);
    var b2 := EmitCloses(b1, loops);
    EnvIn(m, F, lay, open, b, f, loops);
    InOk(f, F);
    GrowReturnValue(b, lay, s.arg);
    PlainCloses(b1, loops);
    RegsShape(b2, RETURN, v, 0, 0, 7);
    PlainIn(b2, f, F); PlainIn(b1, b2, F);
    ExtItems(b, b1, {}); ExtTop(b, b1);
    var ev := if s.arg.None? then Value(Undefined, st, s0.tr) else Eval(m.host, s.arg.value, st, s0.tr);
    n, t := ReturnValueOk(m, F, lay, b, s.arg, st, s0);
    x := Exit(b1, FRet(v));
    if ev.Value? {
      FreshStub(m, F, b, f, loops, x, t);
    } else {
      RunsNone(m, s0);
      KeepRefl(lay, s0.regs, b.top);
      ExtPlain(b1, b2, {}); ThenPlain(b1, b2, f, {});
      ExtRefl(b, {});
      SubRegion(m, F, lay, open, b, b, b1, f, loops, {}, {});
      ExprThrows(m, F, lay, b, b, b1, f, loops, false, false, v, ev, fuel, s0, 0, s0, n, t);
      x := NoExit(b);
    }
  }

  lemma ReturnValueOk(m: Machine, F: Ctx, lay: Layout, b: Ctx, arg: Option<Expr>, st: Store, s: State)
    returns (n: nat, t: State)
    requires World(m, F, lay) && WfOpt(lay, arg) && In(CompReturnValue(b, lay, arg).0, F) && At(b, lay, st, s)
    ensures var (f, r) := CompReturnValue(b, lay, arg);
            Computes(m, lay, b, f, r, if arg.None? then Value(Undefined, st, s.tr)
                     else Eval(m.host, arg.value, st, s.tr), s, n, t)
  {
    if arg.Some? {
      n, t := ExprOk(m, F, lay, b, arg.value, st, s);
    } else {
      n, t := LitOk(m, F, lay, b, Undefined, st, s);
    }
  }

  // ---- switch -----------------------------------------------------------

  function CaseCount(cs: Cases): nat {
    if cs.NoCase? then 0 else 1 + CaseCount(cs.rest)
  }

  // The label of clause k: the default label, or the clause's entry.
  function ClauseLabel(cs: Cases, es: seq<nat>, deflt: nat, k: nat): nat
    requires k < CaseCount(cs) && |es| == TestCount(cs)
    decreases cs
  {
    var own := if cs.test.None? then deflt else es[0];
    var more := if cs.test.None? then es else es[1..];
    if k == 0 then own else ClauseLabel(cs.rest, more, deflt, k - 1)
  }

  lemma {:induction false} DefaultLabel(cs: Cases, es: seq<nat>, deflt: nat)
    requires |es| == TestCount(cs)
    ensures Defaults(cs) == 0 ==> DefaultIndex(cs).None?
    ensures Defaults(cs) > 0 ==> DefaultIndex(cs).Some? && DefaultIndex(cs).value < CaseCount(cs)
                                 && ClauseLabel(cs, es, deflt, DefaultIndex(cs).value) == deflt
    decreases cs
  {
    if cs.Case? {
      DefaultLabel(cs.rest, if cs.test.None? then es else es[1..], deflt);
    }
  }

  // What the guards of a switch do: they evaluate the tests up to the first match
  // and go to that clause, or fall out of the list.
  ghost predicate Tested(m: Machine, F: Ctx, lay: Layout, b: Ctx, f: Ctx, cs: Cases, es: seq<nat>, deflt: nat,
                         i: Option<nat>, ev: ERes, s: State, n: nat, t: State)
    requires |es| == TestCount(cs)
  {
    && Runs(m, s, n, t) && Keep(lay, s.regs, t.regs, b.top) && Rel(lay, ev.st, t.regs)
    && (ev.Thrown? ==> Computes(m, lay, b, f, 0, ev, s, n, t))
    && (ev.Value? ==> t.tr == ev.tr)
    && (ev.Value? && i.None? ==> t.pc == |f.items|)
    && (ev.Value? && i.Some? ==>
          && i.value < CaseCount(cs)
          && ClauseLabel(cs, es, deflt, i.value) < |F.labels|
          && F.labels[ClauseLabel(cs, es, deflt, i.value)] == Some(t.pc))
  }

  lemma {:induction false} TestsOk(m: Machine, F: Ctx, lay: Layout, b: Ctx, d: nat, cs: Cases, deflt: nat, st: Store,
                                   s: State)
    returns (n: nat, t: State)
    requires World(m, F, lay) && WfCases(lay, cs) && In(CompTests(b, lay, d, cs).0, F) && At(b, lay, st, s)
    requires lay.localsEnd <= d < b.top
    ensures var (f, es) := CompTests(b, lay, d, cs);
            var (i, ev) := FirstMatch(m.host, cs, Get(s.regs, d), st, s.tr);
            |es| == TestCount(cs) && Tested(m, F, lay, b, f, cs, es, deflt, i, ev, s, n, t)
    decreases cs
  {
    hide Runs; hide EffectAt; hide Ext; hide CompExpr; hide EmitRegs; hide EmitJump; hide NewTemps; hide Rel; hide Keep;
    hide Eval; hide Computes; hide In;
    GrowTests(b, lay, d, cs);
    var (f, es) := CompTests(b, lay, d, cs);
    InOk(f, F);
    if cs.NoCase? {
      RunsNone(m, s);
      KeepRefl(lay, s.regs, b.top);
      n, t := 0, s;
      return;
    }
    if cs.test.None? {
      n, t := TestsOk(m, F, lay, b, d, cs.rest, deflt, st, s);
      return;
    }
    var (b1, v) := CompExpr(b, lay, cs.test.value);
    var (b2, eq) := NewTemp(b1);
    var b3 := EmitReg3(b2, STRICT_EQ, eq, d, v);
    var (b4, entry) := NewLabel(b3);
    var b5 := EmitJump(b4, JUMP_IF_TRUE, eq, entry);
    GuardIn(m, F, lay, b, d, cs);
    var ev := Eval(m.host, cs.test.value, st, s.tr);
    n, t := ExprOk(m, F, lay, b, cs.test.value, st, s);
    ComputesParts(m, lay, b, b1, v, ev, s, n, t);
    if ev.Thrown? {
      ThrownIn(m, lay, b, b1, f, v, 0, ev, s, n, t);
      return;
    }
    var t1 := GuardStep(m, F, lay, b2, b4, eq, d, v, entry, ev.st, t);
    KeepGet(lay, s.regs, t.regs, b.top, d);
    RunsTrans(m, s, n, t, 2, t1);
    KeepTrans(lay, s.regs, t.regs, t1.regs, b.top, b2.top - 1);
    if StrictEq(Get(s.regs, d), ev.v) {
      n, t := n + 2, t1;
      return;
    }
    var n2, t2 := TestsOk(m, F, lay, b5, d, cs.rest, deflt, ev.st, t1);
    KeepGet(lay, s.regs, t1.regs, b.top, d);
    var (i, ev2) := FirstMatch(m.host, cs.rest, Get(s.regs, d), ev.st, ev.tr);
    RunsTrans(m, s, n + 2, t1, n2, t2);
    KeepTrans(lay, s.regs, t1.regs, t2.regs, b.top, b5.top);
    if ev2.Thrown? {
      Then(m, lay, b, b5, f, 0, ev2, s, n + 2, t1, n2, t2);
    }
    n, t := n + 2 + n2, t2;
  }

  // The stages of one guard.
  lemma GuardIn(m: Machine, F: Ctx, lay: Layout, b: Ctx, d: nat, cs: Cases)
    requires Runs16(m, F) && cs.Case? && cs.test.Some? && In(CompTests(b, lay, d, cs).0, F)
    ensures var (b1, v) := CompExpr(b, lay, cs.test.value);
            var (b2, eq) := NewTemp(b1);
            var b3 := EmitReg3(b2, STRICT_EQ, eq, d, v);
            var (b4, entry) := NewLabel(b3);
            var b5 := EmitJump(b4, JUMP_IF_TRUE, eq, entry);
            && In(b1, F) && In(b3, F) && In(b5, F) && In(CompTests(b5, lay, d, cs.rest).0, F)
            && b.top <= v < b1.top && eq == b1.top && b2.top == eq + 1 && b5.top == b2.top && b2.top <= MAX_REGS
            && |b.items| <= |b1.items| && |b1.items| == |b2.items| && |b3.items| == |b4.items|
            && |b4.items| <= |b5.items| && |b2.items| <= |b3.items|
            && |b5.items| <= |CompTests(b, lay, d, cs).0.items|
            && entry < |F.labels|
  {
    hide Ext; hide CompExpr; hide EmitRegs; hide EmitJump; hide NewTemps;
    var (b1, v) := CompExpr(b, lay, cs.test.value);
    var (b2, eq) := NewTemp(b1);
    var b3 := EmitReg3(b2, STRICT_EQ, eq, d, v);
    var (b4, entry) := NewLabel(b3);
    var b5 := EmitJump(b4, JUMP_IF_TRUE, eq, entry);
    var (f, es) := CompTests(b5, lay, d, cs.rest);
    GrowExpr(b, lay, cs.test.value);
    PlainTemps(b1, 1);
    RegsShape(b2, STRICT_EQ, eq, d, v, 7);
    JumpShape(b4, JUMP_IF_TRUE, eq, entry);
    GrowTests(b5, lay, d, cs.rest);
    ExtIn(b5, f, (set l | l in es), F);
    ExtItems(b5, f, set l | l in es);
    PlainIn(b4, b5, F);
    ExtRefl(b3, {entry}); ThenLabel(b3, b3, {entry}); ExtIn(b3, b4, {entry}, F);
    PlainIn(b2, b3, F); PlainIn(b1, b2, F);
    ExtItems(b, b1, {});
  }

  // The comparison and the branch of one guard.
  lemma GuardStep(m: Machine, F: Ctx, lay: Layout, b2: Ctx, b4: Ctx, eq: nat, d: nat, v: nat, entry: nat, st: Store,
                  s: State)
    returns (t: State)
    requires World(m, F, lay) && In(EmitReg3(b2, STRICT_EQ, eq, d, v), F)
             && In(EmitJump(b4, JUMP_IF_TRUE, eq, entry), F)
    requires |b4.items| == |EmitReg3(b2, STRICT_EQ, eq, d, v).items| && entry < |F.labels|
    requires s.pc == |b2.items| && Rel(lay, st, s.regs) && lay.localsEnd < eq < 0x1_0000 && d < 0x1_0000 && v < 0x1_0000
    ensures var hit := StrictEq(Get(s.regs, d), Get(s.regs, v));
            && Runs(m, s, 2, t) && Keep(lay, s.regs, t.regs, eq) && Rel(lay, st, t.regs) && t.tr == s.tr
            && t.pc == (if hit then F.labels[entry].value else |EmitJump(b4, JUMP_IF_TRUE, eq, entry).items|)
  {
    hide Runs; hide EffectAt; hide WidthAt; hide EmitJump; hide EncodeRegs; hide In; hide Rel; hide Keep; hide Runs16;
    AtRegs(m, F, b2, STRICT_EQ, eq, d, v, 7, s);
    ExecBinary(m, LogicalOf(STRICT_EQ, eq, d, v, |EncodeRegs(STRICT_EQ, eq, d, v, 7)|), s);
    var hit := StrictEq(Get(s.regs, d), Get(s.regs, v));
    var regs := s.regs[eq := Bool(hit)];
    StepNext(m, s, regs, s.tr);
    var s1 := State(|b4.items|, regs, s.tr);
    WriteTemp(lay, st, s.regs, eq, Bool(hit), eq);
    DoBranch(m, F, b4, JUMP_IF_TRUE, eq, entry, s1);
    BoundAt(m, F, entry);
    t := State(if hit then F.labels[entry].value else |EmitJump(b4, JUMP_IF_TRUE, eq, entry).items|, regs, s.tr);
    RunsTrans(m, s, 1, s1, 1, t);
  }

  // Where the bodies are entered for clause k: at its label, or past the last one.
  ghost predicate AtClause(F: Ctx, b: Ctx, cs: Cases, es: seq<nat>, deflt: nat, k: nat, pc: nat)
    requires |es| == TestCount(cs)
  {
    if cs.NoCase? then pc == |b.items|
    else
      && k < CaseCount(cs) && ClauseLabel(cs, es, deflt, k) < |F.labels|
      && F.labels[ClauseLabel(cs, es, deflt, k)] == Some(pc)
  }

  lemma {:induction false} BodiesOk(m: Machine, F: Ctx, lay: Layout, open: set<nat>, b: Ctx, loops: seq<LoopCtx>,
                                    cs: Cases, es: seq<nat>, deflt: nat,
                                    k: nat, st: Store, s0: State, fuel: nat)
    returns (n: nat, t: State, x: Exit)
    requires WfCases(lay, cs) && Env(m, F, lay, open, b, CompBodies(b, lay, loops, cs, es, deflt), loops)
    requires |es| == TestCount(cs) && AtClause(F, b, cs, es, deflt, k, s0.pc) && Rel(lay, st, s0.regs)
             && lay.localsEnd < b.top
    ensures Does(m, F, lay, b, CompBodies(b, lay, loops, cs, es, deflt), loops, BareBreakC(cs), BareContinueC(cs),
                 ExecCases(m.host, cs, Some(k), st, s0.tr, fuel), fuel, s0, n, t, x)
    decreases fuel, cs, 0
  {
    hide Runs; hide EffectAt; hide Does; hide Ext; hide Env; hide CompStmts; hide Bind; hide Nested; hide Rel;
    hide Keep; hide ExecAll; hide In;
    hide BareBreakS; hide BareContinueS;
    RunsNone(m, s0);
    KeepRefl(lay, s0.regs, b.top);
    var f := CompBodies(b, lay, loops, cs, es, deflt);
    EnvIn(m, F, lay, open, b, f, loops);
    if cs.NoCase? {
      NormalDone(m, F, lay, b, b, loops, false, false, st, fuel, s0, 0, s0);
      n, t, x := 0, s0, NoExit(b);
      return;
    }
    var l := if cs.test.None? then deflt else es[0];
    var more := if cs.test.None? then es else es[1..];
    var b1 := Bind(b, l);
    var b2 := CompStmts(b1, lay, loops, cs.body);
    BodyParts(m, F, lay, open, b, loops, cs, es, deflt);
    var bareB, bareC := BareBreakC(cs), BareContinueC(cs);
    if k > 0 {
      assert CaseCount(cs) == 1 + CaseCount(cs.rest);
      assert ClauseLabel(cs, es, deflt, k) == ClauseLabel(cs.rest, more, deflt, k - 1);
      n, t, x := BodiesOk(m, F, lay, open, b2, loops, cs.rest, more, deflt, k - 1, st, s0, fuel);
      Onward(m, F, lay, b, b2, f, f, loops, BareBreakC(cs.rest), BareContinueC(cs.rest), bareB, bareC,
             ExecCases(m.host, cs.rest, Some(k - 1), st, s0.tr, fuel), fuel, fuel, s0, 0, s0, n, t, x);
      return;
    }
    n, t, x := StmtsOk(m, F, lay, open, b1, loops, cs.body, st, s0, fuel);
    var r := ExecAll(m.host, cs.body, st, s0.tr, fuel);
    if !r.c.Normal? {
      Abrupt(m, F, lay, b, b1, b2, f, loops, BareBreakS(cs.body), BareContinueS(cs.body), bareB, bareC, r, fuel, fuel,
             s0, 0, s0, n, t, x);
      return;
    }
    DoesNormal(m, F, lay, b1, b2, loops, BareBreakS(cs.body), BareContinueS(cs.body), r, fuel, s0, n, t, x);
    assert AtClause(F, b2, cs.rest, more, deflt, 0, |b2.items|) by {
      if cs.rest.Case? {
        BodyParts(m, F, lay, open, b2, loops, cs.rest, more, deflt);
      }
    }
    var n2, t2;
    n2, t2, x := BodiesOk(m, F, lay, open, b2, loops, cs.rest, more, deflt, 0, r.st, t, fuel);
    Onward(m, F, lay, b, b2, f, f, loops, BareBreakC(cs.rest), BareContinueC(cs.rest), bareB, bareC,
           ExecCases(m.host, cs.rest, Some(0), r.st, r.tr, fuel), fuel, fuel, s0, n, t, n2, t2, x);
    n, t := n + n2, t2;
  }

  // The first clause's body and the rest of the clauses, as regions.
  lemma BodyParts(m: Machine, F: Ctx, lay: Layout, open: set<nat>, b: Ctx, loops: seq<LoopCtx>, cs: Cases, es: seq<nat>,
                  deflt: nat)
    requires cs.Case? && |es| == TestCount(cs)
             && Env(m, F, lay, open, b, CompBodies(b, lay, loops, cs, es, deflt), loops)
    ensures var l := if cs.test.None? then deflt else es[0];
            var more := if cs.test.None? then es else es[1..];
            var b1 := Bind(b, l);
            var b2 := CompStmts(b1, lay, loops, cs.body);
            var f := CompBodies(b2, lay, loops, cs.rest, more, deflt);
            && f == CompBodies(b, lay, loops, cs, es, deflt)
            && l < |F.labels| && F.labels[l] == Some(|b.items|) && |b1.items| == |b.items| && b1.top == b.top
            && b1.top <= b2.top
            && Env(m, F, lay, open, b1, b2, loops) && Env(m, F, lay, open, b2, f, loops)
            && Nested(b, b1, b2, f) && Nested(b, b2, f, f)
  {
    hide Ext; hide Env; hide CompStmts; hide Bind; hide Nested; hide In;
    var l := if cs.test.None? then deflt else es[0];
    var more := if cs.test.None? then es else es[1..];
    var b1 := Bind(b, l);
    var b2 := CompStmts(b1, lay, loops, cs.body);
    var f := CompBodies(b2, lay, loops, cs.rest, more, deflt);
    var all := (set e | e in es) + {deflt};
    EnvIn(m, F, lay, open, b, f, loops);
    GrowStmts(b1, lay, loops, cs.body);
    GrowBodies(b2, lay, loops, cs.rest, more, deflt, all);
    ExtIn(b2, f, all, F); ExtIn(b1, b2, {}, F); BindIn(b, l, F);
    ExtRefl(b, all); ThenBind(b, b, l, all); ThenExt(b, b1, b2, all); ExtRefl(f, all);
    ExtTop(b1, b2);
    InOk(b2, F);
    SubRegionOpen(m, F, lay, open, b, b1, b2, f, loops, all, {}, all);
    SubRegionOpen(m, F, lay, open, b, b2, f, f, loops, all, all, all);
  }

  lemma SwitchCode(b: Ctx, lay: Layout, loops: seq<LoopCtx>, s: Stmt)
    requires s.Switch?
    ensures var (b1, d) := CompExpr(b, lay, s.disc);
            var (b2, end) := NewLabel(b1);
            if Defaults(s.cases) > 1 then CompStmt(b, lay, loops, s).failed
            else
              var (b3, deflt) := if Defaults(s.cases) == 1 then NewLabel(b2) else (b2, end);
              var (b4, es) := CompTests(b3, lay, d, s.cases);
              var b6 :=
                CompBodies(EmitGoto(b4, deflt), lay, loops + [LoopCtx(end, None, s.name, None)], s.cases, es, deflt);
              CompStmt(b, lay, loops, s) == Bind(b6, end)
  {
    hide CompExpr; hide EmitJump; hide Bind; hide CompTests; hide CompBodies; hide Defaults;
  }

  // The stages of a `switch` and what they may rely on.
  lemma SwitchParts(m: Machine, F: Ctx, lay: Layout, open: set<nat>, b: Ctx, loops: seq<LoopCtx>, s: Stmt)
    requires s.Switch? && Env(m, F, lay, open, b, CompStmt(b, lay, loops, s), loops)
    ensures Defaults(s.cases) <= 1
    ensures var (b1, d) := CompExpr(b, lay, s.disc);
            var (b2, end) := NewLabel(b1);
            var (b3, deflt) := if Defaults(s.cases) == 1 then NewLabel(b2) else (b2, end);
            var (b4, es) := CompTests(b3, lay, d, s.cases);
            var b5 := EmitGoto(b4, deflt);
            var loops1 := loops + [LoopCtx(end, None, s.name, None)];
            var b6 := CompBodies(b5, lay, loops1, s.cases, es, deflt);
            var f := Bind(b6, end);
            && f == CompStmt(b, lay, loops, s)
            && In(b1, F) && In(b4, F) && In(b5, F)
            && b.top <= d < b1.top && b1.top == b3.top && b1.top <= b5.top && b1.handlers == b.handlers
            && b4.handlers == b3.handlers
            && |b3.items| == |b1.items| && |f.items| == |b6.items| && |es| == TestCount(s.cases)
            && end < |F.labels| && deflt < |F.labels| && F.labels[end] == Some(|f.items|)
            && Env(m, F, lay, open, b5, b6, loops1)
            && Nested(b, b, b1, f) && Nested(b, b3, b4, f) && Nested(b, b5, b6, f)
  {
    hide Ext; hide CompExpr; hide EmitJump; hide Env; hide Nested; hide Bind; hide CompTests; hide CompBodies; hide In;
    hide World; hide LoopsIn;
    SwitchCode(b, lay, loops, s);
    hide CompStmt;
    var (b1, d) := CompExpr(b, lay, s.disc);
    var (b2, end) := NewLabel(b1);
    var f := CompStmt(b, lay, loops, s);
    EnvIn(m, F, lay, open, b, f, loops);
    InOk(f, F);
    var (b3, deflt) := if Defaults(s.cases) == 1 then NewLabel(b2) else (b2, end);
    var (b4, es) := CompTests(b3, lay, d, s.cases);
    var b5 := EmitGoto(b4, deflt);
    var lc := LoopCtx(end, None, s.name, None);
    var b6 := CompBodies(b5, lay, loops + [lc], s.cases, es, deflt);
    var inner := set l | l in es;
    var all := inner + {end, deflt};
    GrowExpr(b, lay, s.disc); GrowTests(b3, lay, d, s.cases); JumpShape(b4, JUMP, 0, deflt);
    GrowBodies(b5, lay, loops + [lc], s.cases, es, deflt, all);
    BindIn(b6, end, F); ExtIn(b5, b6, all, F); PlainIn(b4, b5, F); ExtIn(b3, b4, inner, F);
    ExtRefl(b1, all); ThenLabel(b1, b1, all);
    if Defaults(s.cases) == 1 { ThenLabel(b1, b2, all); }
    ExtIn(b1, b3, all, F);
    ExtRefl(b6, all); ThenBind(b6, b6, end, all);
    ExtPlain(b4, b5, all); ExtTrans(b4, b5, b6, all); ExtTrans(b4, b6, f, all);
    ExtWeaken(b3, b4, inner, all); ExtTrans(b1, b3, b4, all); ExtTrans(b1, b4, f, all);
    ExtRefl(b, all); ThenExt(b, b, b1, all); ExtTrans(b, b1, b3, all); ExtTrans(b, b3, b4, all);
    ThenPlain(b, b4, b5, all);
    ExtLabels(b3, b4, inner); ExtLabels(b5, b6, all);
    InOk(b6, F); InOk(b4, F); InOk(b1, F);
    InLabels(b6, F);
    SubRegionOpen(m, F, lay, open, b, b, b1, f, loops, all, {}, all);
    SubRegionOpen(m, F, lay, open, b, b3, b4, f, loops, all, inner, all);
    SubRegionOpen(m, F, lay, open, b, b5, b6, f, loops, all, all, all);
    LoopGrows(loops, lc, F, lay, b.top, b5.top);
    EnvLoops(m, F, lay, open, b5, b6, loops, loops + [lc]);
  }

  lemma {:induction false} SwitchOk(m: Machine, F: Ctx, lay: Layout, open: set<nat>, b: Ctx, loops: seq<LoopCtx>,
                                    s: Stmt, st: Store, s0: State, fuel: nat)
    returns (n: nat, t: State, x: Exit)
    requires s.Switch? && WfStmt(lay, s) && Env(m, F, lay, open, b, CompStmt(b, lay, loops, s), loops)
             && At(b, lay, st, s0)
    ensures Does(m, F, lay, b, CompStmt(b, lay, loops, s), loops, false, BareContinue(s),
                 Execute(m.host, s, st, s0.tr, fuel), fuel, s0, n, t, x)
    decreases fuel, s, 1
  {
    hide Runs; hide EffectAt; hide Does; hide Ext; hide EmitJump; hide Bind; hide Nested; hide Rel; hide Keep;
    hide CompExpr; hide CompStmt;
    hide CompTests; hide CompBodies; hide Env; hide In; hide Eval; hide FirstMatch; hide ExecCases; hide Computes;
    hide BareBreakC; hide BareContinueC;
    var f := CompStmt(b, lay, loops, s);
    var (b1, d) := CompExpr(b, lay, s.disc);
    var (b2, end) := NewLabel(b1);
    SwitchParts(m, F, lay, open, b, loops, s);
    var (b3, deflt) := if Defaults(s.cases) == 1 then NewLabel(b2) else (b2, end);
    var (b4, es) := CompTests(b3, lay, d, s.cases);
    EnvIn(m, F, lay, open, b, f, loops);
    x := NoExit(b);
    RunsNone(m, s0);
    KeepRefl(lay, s0.regs, b.top);
    var ev := Eval(m.host, s.disc, st, s0.tr);
    n, t := ExprOk(m, F, lay, b, s.disc, st, s0);
    ComputesParts(m, lay, b, b1, d, ev, s0, n, t);
    if ev.Thrown? {
      ExprThrows(m, F, lay, b, b, b1, f, loops, false, BareContinue(s), d, ev, fuel, s0, 0, s0, n, t);
      return;
    }
    var (i, tested) := FirstMatch(m.host, s.cases, ev.v, ev.st, ev.tr);
    var n2, t2 := TestsOk(m, F, lay, b3, d, s.cases, deflt, ev.st, t);
    if tested.Thrown? {
      ExprThrows(m, F, lay, b, b3, b4, f, loops, false, BareContinue(s), 0, tested, fuel, s0, n, t, n2, t2);
      n, t := n + n2, t2;
      return;
    }
    RunsTrans(m, s0, n, t, n2, t2);
    KeepTrans(lay, s0.regs, t.regs, t2.regs, b.top, b3.top);
    n, t := n + n2, t2;
    if i.None? {
      DoGoto(m, F, b4, deflt, t2);
      t := State(F.labels[deflt].value, t2.regs, t2.tr);
      RunsTrans(m, s0, n, t2, 1, t);
      n := n + 1;
      BoundAt(m, F, deflt);
    }
    DefaultLabel(s.cases, es, deflt);
    var sel := Select(m.host, s.cases, ev.v, ev.st, ev.tr).0;
    if sel.None? {
      NormalDone(m, F, lay, b, f, loops, false, BareContinue(s), tested.st, fuel, s0, n, t);
      SelectNone(m.host, s.cases, tested.st, tested.tr, fuel);
    } else {
      n, t, x := ClausesOk(m, F, lay, open, b, loops, s, sel.value, tested.st, s0, n, t, fuel);
    }
  }

  // The bodies of a switch, n1 steps into it, entered at clause k.
  lemma {:induction false} ClausesOk(m: Machine, F: Ctx, lay: Layout, open: set<nat>, b: Ctx, loops: seq<LoopCtx>,
                                     s: Stmt, k: nat, st: Store,
                                     s0: State, n1: nat, s1: State, fuel: nat)
    returns (n: nat, t: State, x: Exit)
    requires s.Switch? && WfStmt(lay, s) && Env(m, F, lay, open, b, CompStmt(b, lay, loops, s), loops)
    requires Defaults(s.cases) <= 1 && k < CaseCount(s.cases)
    requires Runs(m, s0, n1, s1) && Keep(lay, s0.regs, s1.regs, b.top) && Rel(lay, st, s1.regs) && lay.localsEnd < b.top
    requires var (b1, d) := CompExpr(b, lay, s.disc);
             var (b2, end) := NewLabel(b1);
             var (b3, deflt) := if Defaults(s.cases) == 1 then NewLabel(b2) else (b2, end);
             var (b4, es) := CompTests(b3, lay, d, s.cases);
             && |es| == TestCount(s.cases)
             && ClauseLabel(s.cases, es, deflt, k) < |F.labels|
             && F.labels[ClauseLabel(s.cases, es, deflt, k)] == Some(s1.pc)
    ensures var r := ExecCases(m.host, s.cases, Some(k), st, s1.tr, fuel);
            Does(m, F, lay, b, CompStmt(b, lay, loops, s), loops, false, BareContinue(s),
                 if Leaves(r.c, s.name) then SRes(Normal, r.st, r.tr) else r, fuel, s0, n, t, x)
    decreases fuel, s, 0
  {
    hide Runs; hide EffectAt; hide Does; hide Ext; hide EmitJump; hide Bind; hide Nested; hide Rel; hide Keep;
    hide CompExpr; hide CompStmt;
    hide CompTests; hide CompBodies; hide Env; hide In; hide ExecCases; hide BareBreakC; hide BareContinueC;
    var f := CompStmt(b, lay, loops, s);
    var (b1, d) := CompExpr(b, lay, s.disc);
    var (b2, end) := NewLabel(b1);
    SwitchParts(m, F, lay, open, b, loops, s);
    var (b3, deflt) := if Defaults(s.cases) == 1 then NewLabel(b2) else (b2, end);
    var (b4, es) := CompTests(b3, lay, d, s.cases);
    var b5 := EmitGoto(b4, deflt);
    var lc := LoopCtx(end, None, s.name, None);
    var b6 := CompBodies(b5, lay, loops + [lc], s.cases, es, deflt);
    EnvIn(m, F, lay, open, b, f, loops);
    var r := ExecCases(m.host, s.cases, Some(k), st, s1.tr, fuel);
    var bareB, bareC := BareBreakC(s.cases), BareContinueC(s.cases);
    n, t, x := BodiesOk(m, F, lay, open, b5, loops + [lc], s.cases, es, deflt, k, st, s1, fuel);
    if Leaves(r.c, s.name) {
      BareOnly(m, F, lay, b5, b6, loops + [lc], bareB, bareC, r, fuel, s1, n, t, x);
      BreakHere(m, F, lay, b5, b6, loops, lc, bareB, bareC, r, fuel, s1, n, t, x);
      SettledParts(lay, b5, r, s1, t);
      var t1 := State(|f.items|, t.regs, r.tr);
      RunsTrans(m, s0, n1, s1, n + 1, t1);
      KeepTrans(lay, s0.regs, s1.regs, t1.regs, b.top, b5.top);
      n, t, x := n1 + (n + 1), t1, NoExit(b);
      NormalDone(m, F, lay, b, f, loops, false, BareContinue(s), r.st, fuel, s0, n, t1);
    } else {
      NotContinued(m, F, lay, b5, b6, loops, lc, bareB, bareC, r, fuel, s1, n, t, x);
      PassThrough(m, F, lay, b5, b6, loops, lc, bareB, bareC, false, bareC, r, fuel, s1, n, t, x);
      Onward(m, F, lay, b, b5, b6, f, loops, false, bareC, false, BareContinue(s), r, fuel, fuel, s0, n1, s1, n, t, x);
      n := n1 + n;
    }
  }

  lemma BareOnly(m: Machine, F: Ctx, lay: Layout, b: Ctx, f: Ctx, loops: seq<LoopCtx>, bareB: bool, bareC: bool,
                 res: SRes, fuel: nat, s: State, n: nat, t: State, x: Exit)
    requires Does(m, F, lay, b, f, loops, bareB, bareC, res, fuel, s, n, t, x)
    ensures res.c == Brk(None) ==> bareB
    ensures res.c == Cont(None) ==> bareC
  {
    hide Runs; hide EffectAt; hide AtStub; hide Settled; hide Uncovered;
  }

  // ---- for-of -----------------------------------------------------------

  lemma {:induction false} ForOfOk(m: Machine, F: Ctx, lay: Layout, open: set<nat>, b: Ctx, loops: seq<LoopCtx>,
                                   s: Stmt, st: Store, s0: State, fuel: nat)
    returns (n: nat, t: State, x: Exit)
    requires s.ForOf? && WfStmt(lay, s) && Env(m, F, lay, open, b, CompStmt(b, lay, loops, s), loops)
             && At(b, lay, st, s0)
    ensures Does(m, F, lay, b, CompStmt(b, lay, loops, s), loops, false, false,
                 Execute(m.host, s, st, s0.tr, fuel), fuel, s0, n, t, x)
    decreases fuel, s, 2
  {
    hide Runs; hide EffectAt; hide Does; hide CompForOfHead; hide CompForOfSetup; hide Rel; hide Keep; hide Env;
    hide In; hide CompStmt;
    hide Geo; hide TailOf; hide Execute; hide ExecForOf; hide Iterator; hide Nested; hide Uncovered; hide LoopsIn;
    hide Computes; hide MoveReg; hide EmitJump; hide CompGetStr; hide EmitRegs; hide Bind;
    var h := CompForOfHead(b, lay, s.x, s.rhs);
    var f := CompStmt(b, lay, loops, s);
    EnvIn(m, F, lay, open, b, f, loops);
    ForOfParts(m, F, lay, open, b, loops, s);
    HeadIn(m, F, lay, b, s.x, s.rhs);
    UnfoldEntry(m.host, s, st, s0.tr, fuel);
    x := NoExit(b);
    var it := Iterator(m.host, s.rhs, st, s0.tr);
    n, t := SetupOk(m, F, lay, b, s.rhs, st, s0);
    ComputesParts(m, lay, b, CompForOfSetup(b, lay, s.rhs).0.cx, h.iter, it, s0, n, t);
    if it.Thrown? {
      EntryThrows(m, F, lay, open, b, loops, s, it, fuel, s0, n, t);
    } else {
      var n2, t2;
      n2, t2, x := RoundsOk(m, F, lay, open, b, loops, s, it.v, it.st, t, fuel);
      assert |b.items| <= |CompStmt(b, lay, loops, s).items| by {
        GrowStmt(b, lay, loops, s);
        EnvIn(m, F, lay, open, b, CompStmt(b, lay, loops, s), loops);
        InOk(CompStmt(b, lay, loops, s), F);
        ExtItems(b, CompStmt(b, lay, loops, s), {});
      }
      Resume(m, F, lay, b, f, loops, false, false, ExecForOf(m.host, s, it.v, it.st, it.tr, fuel), fuel, fuel, s0, n, t,
             n2, t2, x);
      n, t := n + n2, t2;
    }
  }

  // Errors before the loop is set up are not its own.
  lemma EntryThrows(m: Machine, F: Ctx, lay: Layout, open: set<nat>, b: Ctx, loops: seq<LoopCtx>, s: Stmt, ev: ERes,
                    fuel: nat, s0: State, n: nat, t: State)
    requires s.ForOf? && Env(m, F, lay, open, b, CompStmt(b, lay, loops, s), loops) && lay.localsEnd < b.top
             && ev.Thrown?
    requires var (h, _) := CompForOfSetup(b, lay, s.rhs);
             |h.cx.items| == CompForOfHead(b, lay, s.x, s.rhs).tryStart
             && Computes(m, lay, b, h.cx, h.iter, ev, s0, n, t)
    ensures Does(m, F, lay, b, CompStmt(b, lay, loops, s), loops, false, false, SRes(Thr(ev.v), ev.st, ev.tr), fuel, s0,
                 n, t, NoExit(b))
  {
    hide Runs; hide EffectAt; hide CompForOfHead; hide CompForOfSetup; hide Rel; hide Keep; hide Env; hide In;
    hide CompStmt; hide TailOf; hide Uncovered; hide FindHandler;
    ForOfParts(m, F, lay, open, b, loops, s);
  }

  lemma {:induction false} RoundsOk(m: Machine, F: Ctx, lay: Layout, open: set<nat>, b: Ctx, loops: seq<LoopCtx>,
                                    s: Stmt, it: Val, st: Store, s0: State, fuel: nat)
    returns (n: nat, t: State, x: Exit)
    requires s.ForOf? && WfStmt(lay, s) && Env(m, F, lay, open, b, CompStmt(b, lay, loops, s), loops)
             && lay.localsEnd < b.top
    requires Rel(lay, st, s0.regs)
    requires var h := CompForOfHead(b, lay, s.x, s.rhs);
             s0.pc == h.tryStart && Get(s0.regs, h.iter) == it && Get(s0.regs, h.guard) == Bool(false)
    ensures Does(m, F, lay, b, CompStmt(b, lay, loops, s), loops, false, false,
                 ExecForOf(m.host, s, it, st, s0.tr, fuel), fuel, s0, n, t, x)
    decreases fuel, s, 1
  {
    hide Runs; hide EffectAt; hide Does; hide CompForOfHead; hide Rel; hide Keep; hide Env; hide In; hide CompStmt;
    hide TailOf; hide Execute; hide ExecForOf; hide Fetch; hide Uncovered; hide TailIn; hide FindHandler;
    var h := CompForOfHead(b, lay, s.x, s.rhs);
    var lc := LoopCtx(h.end, Some(h.cont), s.name, Some((h.iter, h.guard)));
    var c := CompStmt(h.cx, lay, loops + [lc], s.body1);
    var tl := TailOf(c, h);
    ForOfParts(m, F, lay, open, b, loops, s);
    GeoRuns(m, F, lay, b, h, c, tl);
    UnfoldForOf(m.host, s, it, st, s0.tr, fuel);
    x := NoExit(b);
    if fuel == 0 {
      OutOfFuelDone(m, F, lay, b, tl.f, loops, st, s0);
      n, t := 0, s0;
      return;
    }
    n, t := FetchOk(m, F, lay, b, s.x, s.rhs, st, s0);
    match Fetch(m.host, it, s0.tr)
    case Raised(v, tr) =>
      n, t := ThrownOut(m, F, lay, b, h, c, tl, loops, it, v, st, tr, fuel, s0, n, t);
    case Exhausted(tr) =>
      n, t := DoneOk(m, F, lay, b, h, c, tl, loops, st, fuel, s0, n, t);
    case Got(v, tr) =>
      assert n > 0 by { RunsMoved(m, s0, n, t); }
      var n2, t2;
      n2, t2, x := ForOfBodyOk(m, F, lay, open, b, loops, s, it, st[s.x := v], t, fuel);
      Resume(m, F, lay, b, tl.f, loops, false, false, ExecForOf(m.host, s, it, st, s0.tr, fuel), fuel - 1, fuel, s0, n,
             t, n2, t2, x);
      n, t := n + n2, t2;
  }

  lemma RunsMoved(m: Machine, s: State, n: nat, t: State)
    requires Runs(m, s, n, t) && s.pc != t.pc
    ensures n > 0
  {
  }

  // The loop from its body on.
  function RoundExec(h: Host, s: Stmt, it: Val, st: Store, tr: Trace, fuel: nat): SRes
    requires s.ForOf? && fuel > 0
  {
    var b := Execute(h, s.body1, st, tr, fuel);
    if Again(b.c, s.name) then ExecForOf(h, s, it, b.st, b.tr, fuel - 1)
    else if b.c.OutOfFuel? then b
    else if b.c.Thr? then ThrowClose(h, it, b.c.v, b.st, b.tr)
    else ExitClose(h, it, if Leaves(b.c, s.name) then Normal else b.c, b.st, b.tr)
  }

  lemma {:induction false} ForOfBodyOk(m: Machine, F: Ctx, lay: Layout, open: set<nat>, b: Ctx, loops: seq<LoopCtx>,
                                       s: Stmt, it: Val, st: Store, s0: State, fuel: nat)
    returns (n: nat, t: State, x: Exit)
    requires s.ForOf? && WfStmt(lay, s) && Env(m, F, lay, open, b, CompStmt(b, lay, loops, s), loops)
             && lay.localsEnd < b.top
    requires Rel(lay, st, s0.regs) && fuel > 0
    requires var h := CompForOfHead(b, lay, s.x, s.rhs);
             s0.pc == |h.cx.items| && Get(s0.regs, h.iter) == it && Get(s0.regs, h.guard) == Bool(false)
    ensures Does(m, F, lay, b, CompStmt(b, lay, loops, s), loops, false, false,
                 RoundExec(m.host, s, it, st, s0.tr, fuel), fuel - 1, s0, n, t, x)
    decreases fuel, s, 0
  {
    hide Runs; hide EffectAt; hide Does; hide CompForOfHead; hide Rel; hide Keep; hide Env; hide In; hide CompStmt;
    hide BareBreak; hide BareContinue;
    hide TailOf; hide Execute; hide ExecForOf; hide Uncovered; hide FindHandler; hide TailIn; hide ExitClose;
    hide ThrowClose; hide RPosition;
    var h := CompForOfHead(b, lay, s.x, s.rhs);
    var lc := LoopCtx(h.end, Some(h.cont), s.name, Some((h.iter, h.guard)));
    var c := CompStmt(h.cx, lay, loops + [lc], s.body1);
    var tl := TailOf(c, h);
    ForOfParts(m, F, lay, open, b, loops, s);
    GeoRuns(m, F, lay, b, h, c, tl);
    var r := Execute(m.host, s.body1, st, s0.tr, fuel);
    n, t, x := StmtOk(m, F, lay, open + {h.tryStart}, h.cx, loops + [lc], s.body1, st, s0, fuel);
    if Again(r.c, s.name) {
      n, t := BackOk(m, F, lay, b, h, c, tl, loops, lc, s.body1, r, fuel, s0, n, t, x);
      var n2, t2;
      n2, t2, x := RoundsOk(m, F, lay, open, b, loops, s, it, r.st, t, fuel - 1);
      Resume(m, F, lay, b, tl.f, loops, false, false, ExecForOf(m.host, s, it, r.st, r.tr, fuel - 1), fuel - 1,
             fuel - 1, s0, n, t, n2, t2, x);
      n, t := n + n2, t2;
    } else if r.c.OutOfFuel? {
      FuelOut(m, F, lay, h.cx, c, b, tl.f, loops + [lc], loops, BareBreak(s.body1), BareContinue(s.body1), r, fuel, s0,
              n, t, x);
    } else if r.c.Thr? {
      DoesThrows(m, F, lay, h.cx, c, loops + [lc], BareBreak(s.body1), BareContinue(s.body1), r, fuel, s0, n, t, x);
      KeepGet(lay, s0.regs, t.regs, h.cx.top, h.iter);
      KeepGet(lay, s0.regs, t.regs, h.cx.top, h.guard);
      KeepLess(lay, s0.regs, t.regs, b.top, h.cx.top);
      n, t := ThrownOut(m, F, lay, b, h, c, tl, loops, it, r.c.v, r.st, r.tr, fuel - 1, s0, n, t);
      x := NoExit(b);
    } else {
      DoesLess(m, F, lay, h.cx, c, loops + [lc], BareBreak(s.body1), BareContinue(s.body1), r, fuel, fuel - 1, s0, n, t,
               x);
      n, t, x := LeftOk(m, F, lay, b, h, c, tl, loops, lc, s.body1, it, r, fuel - 1, s0, n, t, x);
    }
  }
}
