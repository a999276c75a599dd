/**
 What statement lowering promises about every completion, and how promises about
 parts become promises about the whole.

 A statement that completes by break, continue or return leaves the machine at an
 exit stub: the closes still owed to the enclosing `for-of` loops, followed by the
 jump or return.  Each enclosing loop that is left consumes its own share of the
 stub.  The stub also says what an error raised by one of those closes does: it
 escapes from the loops already left, whose guards are armed, without closing them
 again.
 */
module StmtFrame {
  import opened Words
  import opened Machine
  import opened Assembly
  import opened Source
  import opened Lowering
  import opened Growth
  import opened Steps
  import opened ExprCorrect

  // ---- well-formed statements -------------------------------------------

  predicate WfOpt(lay: Layout, e: Option<Expr>) { e.Some? ==> WfExpr(lay, e.value) }

  // Locals are laid out, and no unlabelled break or continue would have to be
  // caught by a loop or switch that carries a label (the lowering skips those).
  predicate WfStmt(lay: Layout, s: Stmt)
    decreases s
  {
    match s
    case Empty => true
    case ExprStmt(e) => WfExpr(lay, e)
    case Block(body) => WfStmts(lay, body)
    case If(t, a, b) => WfExpr(lay, t) && WfStmt(lay, a) && WfStmt(lay, b)
    case While(name, t, body) => WfExpr(lay, t) && WfStmt(lay, body) && NameOk(name, body)
    case DoWhile(name, body, t) => WfExpr(lay, t) && WfStmt(lay, body) && NameOk(name, body)
    case For(name, i, c, u, body) =>
      WfOpt(lay, i) && WfOpt(lay, c) && WfOpt(lay, u) && WfStmt(lay, body) && NameOk(name, body)
    case ForOf(name, x, rhs, body) => x in lay.vars && WfExpr(lay, rhs) && WfStmt(lay, body) && NameOk(name, body)
    case Labeled(_, body) => WfStmt(lay, body)
    case Switch(name, d, cases) => WfExpr(lay, d) && WfCases(lay, cases) && (name.Some? ==> !BareBreakC(cases))
    case Break(_) => true
    case Continue(_) => true
    case Return(arg) => WfOpt(lay, arg)
    case Throw(e) => WfExpr(lay, e)
  }

  predicate WfStmts(lay: Layout, ss: Stmts)
    decreases ss
  {
    ss.Cons? ==> WfStmt(lay, ss.head) && WfStmts(lay, ss.tail)
  }

  predicate WfCases(lay: Layout, cs: Cases)
    decreases cs
  {
    cs.Case? ==> WfOpt(lay, cs.test) && WfStmts(lay, cs.body) && WfCases(lay, cs.rest)
  }

  predicate NameOk(name: Option<Source.Label>, body: Stmt) {
    name.Some? ==> !BareBreak(body) && !BareContinue(body)
  }

  // An unlabelled break that leaves s.
  predicate BareBreak(s: Stmt)
    decreases s
  {
    match s
    case Block(body) => BareBreakS(body)
    case If(_, a, b) => BareBreak(a) || BareBreak(b)
    case Labeled(_, body) => BareBreak(body)
    case Break(l) => l.None?
    case _ => false
  }

  predicate BareBreakS(ss: Stmts)
    decreases ss
  {
    ss.Cons? && (BareBreak(ss.head) || BareBreakS(ss.tail))
  }

  predicate BareBreakC(cs: Cases)
    decreases cs
  {
    cs.Case? && (BareBreakS(cs.body) || BareBreakC(cs.rest))
  }

  // An unlabelled continue that leaves s.
  predicate BareContinue(s: Stmt)
    decreases s
  {
    match s
    case Block(body) => BareContinueS(body)
    case If(_, a, b) => BareContinue(a) || BareContinue(b)
    case Labeled(_, body) => BareContinue(body)
    case Switch(_, _, cases) => BareContinueC(cases)
    case Continue(l) => l.None?
    case _ => false
  }

  predicate BareContinueS(ss: Stmts)
    decreases ss
  {
    ss.Cons? && (BareContinue(ss.head) || BareContinueS(ss.tail))
  }

  predicate BareContinueC(cs: Cases)
    decreases cs
  {
    cs.Case? && (BareContinueS(cs.body) || BareContinueC(cs.rest))
  }

  // ---- handler regions --------------------------------------------------

  // Handlers registered after f start inside an open loop or after f's region.
  ghost predicate Outer(f: Ctx, F: Ctx, open: set<nat>) {
    && f.handlers <= F.handlers
    && forall j :: |f.handlers| <= j < |F.handlers| ==> F.handlers[j].start in open || |f.items| <= F.handlers[j].start
  }

  ghost predicate Earlier(b: Ctx) {
    forall j :: 0 <= j < |b.handlers| ==> b.handlers[j].end <= |b.items|
  }

  // No handler registered between b and f covers pc.
  ghost predicate Uncovered(b: Ctx, f: Ctx, pc: nat) {
    forall j :: |b.handlers| <= j < |f.handlers| ==> !f.handlers[j].Covers(pc)
  }

  ghost predicate LoopsIn(loops: seq<LoopCtx>, F: Ctx, lay: Layout, top: nat) {
    forall i :: 0 <= i < |loops| ==>
      && loops[i].brk < |F.labels|
      && (loops[i].cont.Some? ==> loops[i].cont.value < |F.labels|)
      && (loops[i].iter.Some? ==> loops[i].iter.value.0 < top && loops[i].iter.value.1 < top)
  }

  // Everything the code between b and f can rely on.
  ghost predicate Env(m: Machine, F: Ctx, lay: Layout, open: set<nat>, b: Ctx, f: Ctx, loops: seq<LoopCtx>) {
    && World(m, F, lay)
    && m.code.handlers == SortHandlers(F.handlers)
    && In(f, F) && Outer(f, F, open) && Earlier(b)
    && (forall o :: o in open ==> o < |b.items|)
    && LoopsIn(loops, F, lay, b.top)
  }

  // The region bb..ff lies inside b..f, and no handler of b..f outside bb..ff
  // covers any of it.
  ghost predicate Nested(b: Ctx, bb: Ctx, ff: Ctx, f: Ctx) {
    && |b.items| <= |bb.items| && |bb.items| <= |ff.items| && |ff.items| <= |f.items| && b.top <= bb.top
    && forall pc :: |bb.items| <= pc < |ff.items| && Uncovered(bb, ff, pc) ==> Uncovered(b, f, pc)
  }

  lemma SubRegion(m: Machine, F: Ctx, lay: Layout, open: set<nat>, b: Ctx, bb: Ctx, ff: Ctx, f: Ctx,
                  loops: seq<LoopCtx>, s1: set<nat>, s2: set<nat>)
    requires Env(m, F, lay, open, b, f, loops)
    requires Ext(b, bb, s1) && Ext(bb, ff, {}) && Ext(ff, f, s2)
    ensures Env(m, F, lay, open, bb, ff, loops)
    ensures Nested(b, bb, ff, f)
  {
    SubRegionOpen(m, F, lay, open, b, bb, ff, f, loops, s1, {}, s2);
  }

  lemma SubRegionOpen(m: Machine, F: Ctx, lay: Layout, open: set<nat>, b: Ctx, bb: Ctx, ff: Ctx, f: Ctx,
                      loops: seq<LoopCtx>,
                      s1: set<nat>, mid: set<nat>, s2: set<nat>)
    requires Env(m, F, lay, open, b, f, loops)
    requires Ext(b, bb, s1) && Ext(bb, ff, mid) && Ext(ff, f, s2)
    ensures Env(m, F, lay, open, bb, ff, loops)
    ensures Nested(b, bb, ff, f)
  {
    ExtIn(ff, f, s2, F);
    ExtIn(bb, ff, mid, F);
    forall j | |ff.handlers| <= j < |F.handlers|
      ensures F.handlers[j].start in open || |ff.items| <= F.handlers[j].start
    {
      if j < |f.handlers| { assert F.handlers[j] == f.handlers[j]; }
    }
    forall j | 0 <= j < |bb.handlers| ensures bb.handlers[j].end <= |bb.items| {
      if j < |b.handlers| { assert bb.handlers[j] == b.handlers[j]; }
    }
    forall pc, j | |bb.items| <= pc < |ff.items| && Uncovered(bb, ff, pc) && |b.handlers| <= j < |f.handlers|
      ensures !f.handlers[j].Covers(pc)
    {
      if j < |bb.handlers| {
        assert f.handlers[j] == bb.handlers[j];
      } else if j < |ff.handlers| {
        assert f.handlers[j] == ff.handlers[j];
      }
    }
  }

  // ---- exit stubs -------------------------------------------------------

  datatype Fin = FRet(r: nat) | FJump(l: nat)

  function EmitFin(cx: Ctx, fin: Fin): Ctx {
    match fin
    case FRet(r) => EmitReg3(cx, RETURN, r, 0, 0)
    case FJump(l) => EmitGoto(cx, l)
  }

  datatype Exit = Exit(c: Ctx, fin: Fin)

  function StubEnd(x: Exit, pend: seq<LoopCtx>): Ctx {
    EmitFin(EmitCloses(x.c, pend), x.fin)
  }

  // From u, which raises w, control escapes from the region b..f.
  ghost predicate EscapesTo(m: Machine, b: Ctx, f: Ctx, u: State, w: Val, tr: Trace, k: nat, v: State) {
    && Runs(m, u, k, v)
    && EffectAt(m, v) == Raise(w, tr)
    && |b.items| <= v.pc < |f.items| && Uncovered(b, f, v.pc)
    && (forall r :: 0 <= r < b.top ==> Get(v.regs, r) == Get(u.regs, r))
  }

  ghost predicate Escaping(m: Machine, b: Ctx, f: Ctx, u: State, w: Val, tr: Trace) {
    exists k: nat, v :: EscapesTo(m, b, f, u, w, tr, k, v)
  }

  // Registers [low, high) of two frames agree.
  ghost predicate Same(r0: Regs, r1: Regs, low: nat, high: nat) {
    forall r :: low <= r < high ==> Get(r0, r) == Get(r1, r)
  }

  // Whatever is raised at lo..hi, in a frame that agrees with regs on the
  // registers allocated since b, escapes from the region b..f.
  ghost predicate Escape(m: Machine, b: Ctx, f: Ctx, lo: nat, hi: nat, top: nat, regs: Regs) {
    forall u: State, w, tr ::
      lo <= u.pc < hi && Same(u.regs, regs, b.top, top) && EffectAt(m, u) == Raise(w, tr)
      ==> Escaping(m, b, f, u, w, tr)
  }

  // t stands at the start of an exit stub that lies inside b..f.
  ghost predicate AtStub(m: Machine, F: Ctx, b: Ctx, f: Ctx, pend: seq<LoopCtx>, x: Exit, t: State) {
    && t.pc == |x.c.items|
    && In(StubEnd(x, pend), F)
    && |b.items| <= |x.c.items| && |StubEnd(x, pend).items| <= |f.items| && b.top <= x.c.top
    && (x.fin.FJump? ==> x.fin.l < |F.labels|)
    && (x.fin.FRet? ==> b.top <= x.fin.r < x.c.top)
    && Escape(m, b, f, |x.c.items|, |StubEnd(x, pend).items|, x.c.top, t.regs)
  }

  // ---- what a statement does --------------------------------------------

  // n steps from s lead to t, which matches the evaluator's result res for the
  // code between b and f under the given loops.  The flags bound which
  // completions are possible: bare jumps only where the statement contains them.
  ghost predicate Does(m: Machine, F: Ctx, lay: Layout, b: Ctx, f: Ctx, loops: seq<LoopCtx>, bareB: bool, bareC: bool,
                       res: SRes, fuel: nat, s: State, n: nat, t: State, x: Exit) {
    && Runs(m, s, n, t)
    && match res.c
       case OutOfFuel => fuel <= n && t.tr == res.tr
       case Thr(v) =>
         && Settled(lay, b, res, s, t)
         && |b.items| <= t.pc < |f.items| && Uncovered(b, f, t.pc) && EffectAt(m, t) == Raise(v, res.tr)
       case Normal => Settled(lay, b, res, s, t) && t.pc == |f.items| && t.tr == res.tr
       case Ret(v) =>
         && Settled(lay, b, res, s, t) && t.tr == res.tr
         && AtStub(m, F, b, f, loops, x, t) && x.fin.FRet? && Get(t.regs, x.fin.r) == v
       case Brk(l) =>
         && Settled(lay, b, res, s, t) && t.tr == res.tr && (l.None? ==> bareB)
         && var p := RPosition(loops, l, false);
         && p.Some? && AtStub(m, F, b, f, loops[p.value..], x, t) && x.fin == FJump(loops[p.value].brk)
       case Cont(l) =>
         && Settled(lay, b, res, s, t) && t.tr == res.tr && (l.None? ==> bareC)
         && var p := RPosition(loops, l, true);
         && p.Some? && loops[p.value].cont.Some?
         && AtStub(m, F, b, f, loops[p.value + 1..], x, t) && x.fin == FJump(loops[p.value].cont.value)
  }

  ghost predicate Settled(lay: Layout, b: Ctx, res: SRes, s: State, t: State) {
    Keep(lay, s.regs, t.regs, b.top) && Rel(lay, res.st, t.regs)
  }

  // An unused exit, for completions that need none.
  function NoExit(b: Ctx): Exit { Exit(b, FRet(0)) }

  // ---- composition ------------------------------------------------------

  lemma StubUp(m: Machine, F: Ctx, b: Ctx, bb: Ctx, ff: Ctx, f: Ctx, pend: seq<LoopCtx>, x: Exit, t: State)
    requires AtStub(m, F, bb, ff, pend, x, t) && Nested(b, bb, ff, f)
    ensures AtStub(m, F, b, f, pend, x, t)
  {
    hide EffectAt; hide Uncovered;
    assert Escape(m, b, f, |x.c.items|, |StubEnd(x, pend).items|, x.c.top, t.regs) by {
      forall u: State, w, tr | |x.c.items| <= u.pc < |StubEnd(x, pend).items| && Same(u.regs, t.regs, b.top, x.c.top)
        && EffectAt(m, u) == Raise(w, tr)
        ensures Escaping(m, b, f, u, w, tr)
      {
        assert Same(u.regs, t.regs, bb.top, x.c.top);
        assert Escaping(m, bb, ff, u, w, tr);
        var k: nat, v :| EscapesTo(m, bb, ff, u, w, tr, k, v);
        assert EscapesTo(m, b, f, u, w, tr, k, v);
      }
    }
  }

  // A part that completes abruptly, after a prefix that completed normally, is
  // the whole completing abruptly.
  lemma Abrupt(m: Machine, F: Ctx, lay: Layout, b: Ctx, bb: Ctx, ff: Ctx, f: Ctx, loops: seq<LoopCtx>,
               bareB: bool, bareC: bool, outB: bool, outC: bool,
               res: SRes, fuel: nat, fuel': nat, s: State, n1: nat, s1: State, n2: nat, t: State, x: Exit)
    requires Runs(m, s, n1, s1) && Keep(lay, s.regs, s1.regs, b.top)
    requires Does(m, F, lay, bb, ff, loops, bareB, bareC, res, fuel, s1, n2, t, x)
    requires Nested(b, bb, ff, f) && !res.c.Normal?
    requires (bareB ==> outB) && (bareC ==> outC) && fuel' <= n1 + fuel
    ensures Does(m, F, lay, b, f, loops, outB, outC, res, fuel', s, n1 + n2, t, x)
  {
    hide EffectAt; hide Runs; hide AtStub; hide Rel; hide Uncovered;
    RunsTrans(m, s, n1, s1, n2, t);
    if !res.c.OutOfFuel? {
      KeepTrans(lay, s.regs, s1.regs, t.regs, b.top, bb.top);
    }
    match res.c
    case OutOfFuel =>
    case Thr(v) =>
    case Ret(v) => StubUp(m, F, b, bb, ff, f, loops, x, t);
    case Brk(l) => StubUp(m, F, b, bb, ff, f, loops[RPosition(loops, l, false).value..], x, t);
    case Cont(l) => StubUp(m, F, b, bb, ff, f, loops[RPosition(loops, l, true).value + 1..], x, t);
  }

  // A throw of an expression is a throw of the statement around it.
  lemma ExprThrows(m: Machine, F: Ctx, lay: Layout, b: Ctx, bb: Ctx, ff: Ctx, f: Ctx, loops: seq<LoopCtx>,
                   bareB: bool, bareC: bool, r: nat, ev: ERes, fuel: nat, s: State, n1: nat, s1: State, n2: nat,
                     t: State)
    requires Runs(m, s, n1, s1) && Keep(lay, s.regs, s1.regs, b.top)
    requires Computes(m, lay, bb, ff, r, ev, s1, n2, t) && ev.Thrown?
    requires ff.handlers == bb.handlers && Nested(b, bb, ff, f)
    ensures Does(m, F, lay, b, f, loops, bareB, bareC, SRes(Thr(ev.v), ev.st, ev.tr), fuel, s, n1 + n2, t, NoExit(b))
  {
    hide EffectAt; hide Runs; hide Rel;
    RunsTrans(m, s, n1, s1, n2, t);
    KeepTrans(lay, s.regs, s1.regs, t.regs, b.top, bb.top);
    assert Uncovered(bb, ff, t.pc);
  }

  lemma NormalDone(m: Machine, F: Ctx, lay: Layout, b: Ctx, f: Ctx, loops: seq<LoopCtx>, bareB: bool, bareC: bool,
                   st: Store, fuel: nat, s: State, n: nat, t: State)
    requires Runs(m, s, n, t) && Keep(lay, s.regs, t.regs, b.top) && Rel(lay, st, t.regs) && t.pc == |f.items|
    ensures Does(m, F, lay, b, f, loops, bareB, bareC, SRes(Normal, st, t.tr), fuel, s, n, t, NoExit(b))
  {
    hide EffectAt; hide Runs; hide Rel; hide Keep;
  }

  // Registers keep their values when nothing moves.
  lemma KeepRefl(lay: Layout, regs: Regs, top: nat)
    ensures Keep(lay, regs, regs, top)
  {
  }

  // ---- loops that are passed through ------------------------------------

  lemma ClosesSnoc(c: Ctx, ls: seq<LoopCtx>, lc: LoopCtx)
    ensures EmitCloses(c, ls + [lc]) == EmitCloses(if lc.iter.Some? then CloseOne(c, lc.iter.value) else c, ls)
  {
    assert (ls + [lc])[..|ls|] == ls;
  }

  lemma RPositionSnoc(loops: seq<LoopCtx>, lc: LoopCtx, l: Option<Source.Label>, isCont: bool)
    ensures RPosition(loops + [lc], l, isCont) ==
            if Resolves(lc, l, isCont) then Some(|loops|) else RPosition(loops, l, isCont)
  {
    assert (loops + [lc])[..|loops|] == loops;
  }

  // A completion that a loop, switch or label without iterator does not catch
  // passes it unchanged.
  lemma PassThrough(m: Machine, F: Ctx, lay: Layout, b: Ctx, f: Ctx, loops: seq<LoopCtx>, lc: LoopCtx,
                    bareB: bool, bareC: bool, outB: bool, outC: bool,
                    res: SRes, fuel: nat, s: State, n: nat, t: State, x: Exit)
    requires Does(m, F, lay, b, f, loops + [lc], bareB, bareC, res, fuel, s, n, t, x) && lc.iter.None?
    requires res.c.Brk? ==> !Resolves(lc, res.c.lbl, false) && (res.c.lbl.None? && bareB ==> outB)
    requires res.c.Cont? ==> !Resolves(lc, res.c.lbl, true) && (res.c.lbl.None? && bareC ==> outC)
    ensures Does(m, F, lay, b, f, loops, outB, outC, res, fuel, s, n, t, x)
  {
    hide EffectAt; hide Runs; hide Rel; hide Escape; hide Uncovered; hide EmitCloses; hide In;
    var all := loops + [lc];
    match res.c
    case Brk(l) =>
      RPositionSnoc(loops, lc, l, false);
      var p := RPosition(loops, l, false).value;
      assert all[p..] == loops[p..] + [lc];
      ClosesSnoc(x.c, loops[p..], lc);
    case Cont(l) =>
      RPositionSnoc(loops, lc, l, true);
      var p := RPosition(loops, l, true).value;
      assert all[p + 1..] == loops[p + 1..] + [lc];
      ClosesSnoc(x.c, loops[p + 1..], lc);
    case Ret(_) => ClosesSnoc(x.c, loops, lc);
    case _ =>
  }

  // A jump whose target is this very loop, with no closes left, is a plain goto.
  lemma ArriveFrom(m: Machine, F: Ctx, b: Ctx, f: Ctx, x: Exit, t: State)
    requires Runs16(m, F) && AtStub(m, F, b, f, [], x, t) && x.fin.FJump?
    ensures Runs(m, t, 1, State(F.labels[x.fin.l].value, t.regs, t.tr))
  {
    hide EffectAt; hide Runs; hide Escape; hide EmitJump;
    DoGoto(m, F, x.c, x.fin.l, t);
  }

  // Break of a loop without iterator: the stub holds just the jump to its end.
  lemma BreakHere(m: Machine, F: Ctx, lay: Layout, b: Ctx, f: Ctx, loops: seq<LoopCtx>, lc: LoopCtx,
                  bareB: bool, bareC: bool, res: SRes, fuel: nat, s: State, n: nat, t: State, x: Exit)
    requires Runs16(m, F) && Does(m, F, lay, b, f, loops + [lc], bareB, bareC, res, fuel, s, n, t, x) && lc.iter.None?
    requires res.c.Brk? && Resolves(lc, res.c.lbl, false) && lc.brk < |F.labels|
    ensures Runs(m, s, n + 1, State(F.labels[lc.brk].value, t.regs, res.tr))
    ensures Settled(lay, b, res, s, t)
  {
    hide EffectAt; hide Runs; hide Rel; hide Uncovered; hide EmitCloses; hide Escape; hide Keep;
    var all := loops + [lc];
    RPositionSnoc(loops, lc, res.c.lbl, false);
    assert all[|loops|..] == [] + [lc];
    ClosesSnoc(x.c, [], lc);
    assert AtStub(m, F, b, f, [], x, t);
    ArriveFrom(m, F, b, f, x, t);
    RunsTrans(m, s, n, t, 1, State(F.labels[lc.brk].value, t.regs, res.tr));
  }

  // Continue of a loop: nothing is closed, control goes to the continuation point.
  lemma ContinueHere(m: Machine, F: Ctx, lay: Layout, b: Ctx, f: Ctx, loops: seq<LoopCtx>, lc: LoopCtx,
                     bareB: bool, bareC: bool, res: SRes, fuel: nat, s: State, n: nat, t: State, x: Exit)
    requires Runs16(m, F) && Does(m, F, lay, b, f, loops + [lc], bareB, bareC, res, fuel, s, n, t, x)
    requires res.c.Cont? && Resolves(lc, res.c.lbl, true) && lc.cont.Some? && lc.cont.value < |F.labels|
    ensures Runs(m, s, n + 1, State(F.labels[lc.cont.value].value, t.regs, res.tr))
    ensures Settled(lay, b, res, s, t)
  {
    hide EffectAt; hide Runs; hide Rel; hide Uncovered; hide Escape; hide Keep;
    var all := loops + [lc];
    RPositionSnoc(loops, lc, res.c.lbl, true);
    assert all[|loops| + 1..] == [];
    ArriveFrom(m, F, b, f, x, t);
    RunsTrans(m, s, n, t, 1, State(F.labels[lc.cont.value].value, t.regs, res.tr));
  }

  // ---- small steps ------------------------------------------------------

  lemma Whole(b: Ctx, f: Ctx)
    requires |b.items| <= |f.items|
    ensures Nested(b, b, f, f)
  {
  }

  lemma EnvIn(m: Machine, F: Ctx, lay: Layout, open: set<nat>, b: Ctx, f: Ctx, loops: seq<LoopCtx>)
    requires Env(m, F, lay, open, b, f, loops)
    ensures World(m, F, lay) && In(f, F) && LoopsIn(loops, F, lay, b.top)
  {
  }

  lemma DoHeader(m: Machine, F: Ctx, b: Ctx, s: State)
    requires Runs16(m, F) && In(EmitWords(b, [Instr(LOOP_HEADER, 0, 0, 0)]), F) && s.pc == |b.items|
    ensures Runs(m, s, 1, State(|b.items| + 1, s.regs, s.tr))
  {
    hide Runs; hide EffectAt; hide WidthAt;
    var w := Instr(LOOP_HEADER, 0, 0, 0);
    WordsAt(m, F, b, [w]);
    assert m.code.instrs[|b.items| + 0] == w;
    DecodedNarrow(m, s, w);
    StepNext(m, s, s.regs, s.tr);
  }

  lemma InOk(b: Ctx, F: Ctx)
    requires In(b, F)
    ensures !b.failed
  {
  }

  lemma InTop(m: Machine, F: Ctx, b: Ctx)
    requires Runs16(m, F) && In(b, F)
    ensures b.top <= MAX_REGS
  {
  }

  lemma InLabels(b: Ctx, F: Ctx)
    requires In(b, F)
    ensures |b.labels| <= |F.labels|
  {
  }

  lemma LabelIn(b: Ctx, F: Ctx)
    requires In(NewLabel(b).0, F)
    ensures In(b, F)
  {
    var f := NewLabel(b).0;
    forall l | 0 <= l < |b.labels| && b.labels[l].Some? ensures F.labels[l] == b.labels[l] {
      assert f.labels[l] == b.labels[l];
    }
  }

  lemma BoundAt(m: Machine, F: Ctx, l: nat)
    requires Runs16(m, F) && l < |F.labels|
    ensures F.labels[l].Some?
  {
  }

  lemma LoopGrows(loops: seq<LoopCtx>, lc: LoopCtx, F: Ctx, lay: Layout, low: nat, top: nat)
    requires LoopsIn(loops, F, lay, low) && low <= top
    requires lc.brk < |F.labels| && (lc.cont.Some? ==> lc.cont.value < |F.labels|)
    requires lc.iter.Some? ==> lc.iter.value.0 < top && lc.iter.value.1 < top
    ensures LoopsIn(loops + [lc], F, lay, top)
  {
  }

  lemma EnvLoops(m: Machine, F: Ctx, lay: Layout, open: set<nat>, b: Ctx, f: Ctx, loops: seq<LoopCtx>,
                 loops1: seq<LoopCtx>)
    requires Env(m, F, lay, open, b, f, loops) && LoopsIn(loops1, F, lay, b.top)
    ensures Env(m, F, lay, open, b, f, loops1)
  {
  }

  lemma ComputesParts(m: Machine, lay: Layout, b: Ctx, f: Ctx, r: nat, ev: ERes, s: State, n: nat, t: State)
    requires Computes(m, lay, b, f, r, ev, s, n, t)
    ensures Runs(m, s, n, t) && Keep(lay, s.regs, t.regs, b.top) && Rel(lay, ev.st, t.regs)
    ensures ev.Value? ==> t.pc == |f.items| && t.tr == ev.tr && Get(t.regs, r) == ev.v
  {
    hide Runs; hide EffectAt; hide Keep; hide Rel;
  }

  lemma SettledParts(lay: Layout, b: Ctx, res: SRes, s: State, t: State)
    requires Settled(lay, b, res, s, t)
    ensures Keep(lay, s.regs, t.regs, b.top) && Rel(lay, res.st, t.regs)
  {
  }

  lemma OutOfFuelDone(m: Machine, F: Ctx, lay: Layout, b: Ctx, f: Ctx, loops: seq<LoopCtx>, st: Store, s: State)
    ensures Does(m, F, lay, b, f, loops, false, false, SRes(OutOfFuel, st, s.tr), 0, s, 0, s, NoExit(b))
  {
    hide EffectAt; hide AtStub; hide Settled; hide Uncovered;
    RunsNone(m, s);
  }
}
