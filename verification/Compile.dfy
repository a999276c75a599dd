/**
 Compiler correctness for whole units: the assembled code of a unit does exactly
 what the evaluator says, for every host, every initial store and every run.
 */
module Compile {
  import opened Words
  import opened Machine
  import opened Assembly
  import opened Source
  import opened Lowering
  import opened Growth
  import opened Steps
  import opened ExprCorrect
  import opened StmtFrame
  import opened ForOfFrame
  import opened StmtCorrect

  // m runs the code of a unit whose lowering succeeded and fits the 16-bit window.
  ghost predicate Compiled(m: Machine, lay: Layout, body: Stmts) {
    var F := CompUnit(lay, body);
    !F.failed && |F.items| < 0x1_0000 && m.code == Assemble(F)
  }

  // The machine at the entry of a unit, with the store laid out in registers.
  ghost predicate Entered(lay: Layout, st: Store, s: State) {
    s.pc == 0 && Rel(lay, st, s.regs)
  }

  lemma UnitEnv(m: Machine, lay: Layout, body: Stmts)
    requires Compiled(m, lay, body) && WfLayout(lay)
    ensures var F := CompUnit(lay, body); Env(m, F, lay, {}, NewCtx(lay), F, [])
  {
    var F := CompUnit(lay, body);
    GrowStmts(NewCtx(lay), lay, [], body);
  }

  // What a source-level result looks like as the end of a run.
  ghost predicate Ends(m: Machine, lay: Layout, s: State, r: SRes) {
    match r.c
    case Normal => exists regs :: Converges(m, s, Final(Returned(Undefined), regs, r.tr)) && Rel(lay, r.st, regs)
    case Ret(v) => exists regs :: Converges(m, s, Final(Returned(v), regs, r.tr)) && Rel(lay, r.st, regs)
    case Thr(v) => exists regs :: Converges(m, s, Final(Threw(v), regs, r.tr)) && Rel(lay, r.st, regs)
    case _ => false
  }

  // After at least n steps the run is still going, with trace tr.
  ghost predicate Going(m: Machine, s: State, n: nat, tr: Trace) {
    exists k: nat, t :: n <= k && Runs(m, s, k, t) && t.tr == tr
  }

  lemma GoingLasts(m: Machine, s: State, n: nat, tr: Trace)
    requires Going(m, s, n, tr)
    ensures Lasts(m, s, n)
  {
    hide Runs;
    var k: nat, t :| n <= k && Runs(m, s, k, t) && t.tr == tr;
    var u := RunsSplit(m, s, k, n, t);
  }

  // Compiler correctness: a source result within the fuel is the machine's result,
  // with the same trace of host requests and the same locals; without a result the
  // machine is still running after that many steps, having made the same requests.
  lemma CompileCorrect(m: Machine, lay: Layout, body: Stmts, st: Store, s0: State, fuel: nat)
    requires Compiled(m, lay, body) && WfLayout(lay) && WfStmts(lay, body) && Entered(lay, st, s0)
    ensures var r := ExecAll(m.host, body, st, s0.tr, fuel);
            if r.c.OutOfFuel? then Going(m, s0, fuel, r.tr) else Ends(m, lay, s0, r)
  {
    hide Runs; hide Rel; hide Ends;
    var F := CompUnit(lay, body);
    var b := NewCtx(lay);
    UnitEnv(m, lay, body);
    EnvIn(m, F, lay, {}, b, F, []);
    var n, t, x := StmtsOk(m, F, lay, {}, b, [], body, st, s0, fuel);
    var r := ExecAll(m.host, body, st, s0.tr, fuel);
    match r.c
    case OutOfFuel =>
    case Normal =>
      assert Ends(m, lay, s0, r) by {
        Ended(m, lay, r, s0, n, t, Returned(Undefined));
      }
    case Ret(v) => Halted(m, lay, b, F, x, r, s0, n, t);
    case Thr(v) => Uncaught(m, F, lay, b, r, s0, n, t);
    case _ =>
  }

  lemma Ended(m: Machine, lay: Layout, r: SRes, s: State, n: nat, t: State, res: Result)
    requires Runs(m, s, n, t) && Step(m, t) == Done(Final(res, t.regs, r.tr)) && Rel(lay, r.st, t.regs)
    requires match r.c
             case Normal => res == Returned(Undefined)
             case Ret(v) => res == Returned(v)
             case Thr(v) => res == Threw(v)
             case _ => false
    ensures Ends(m, lay, s, r)
  {
    hide Runs; hide Step; hide Rel;
    assert Converges(m, s, Final(res, t.regs, r.tr));
  }

  lemma Halted(m: Machine, lay: Layout, b: Ctx, F: Ctx, x: Exit, r: SRes, s: State, n: nat, t: State)
    requires World(m, F, lay) && Runs(m, s, n, t) && Rel(lay, r.st, t.regs) && r.c.Ret? && t.tr == r.tr
    requires AtStub(m, F, b, F, [], x, t) && x.fin.FRet? && Get(t.regs, x.fin.r) == r.c.v
    ensures Ends(m, lay, s, r)
  {
    hide Runs; hide Ends; hide Rel; hide EffectAt; hide EncodeRegs; hide Escape; hide WidthAt; hide Resolve;
    InTop(m, F, StubEnd(x, []));
    AtRegs(m, F, x.c, RETURN, x.fin.r, 0, 0, 7, t);
    Ended(m, lay, r, s, n, t, Returned(r.c.v));
  }

  lemma Uncaught(m: Machine, F: Ctx, lay: Layout, b: Ctx, r: SRes, s: State, n: nat, t: State)
    requires m.code.handlers == SortHandlers(F.handlers) && b.handlers == []
    requires Runs(m, s, n, t) && Rel(lay, r.st, t.regs) && r.c.Thr? && Uncovered(b, F, t.pc)
             && EffectAt(m, t) == Raise(r.c.v, r.tr)
    ensures Ends(m, lay, s, r)
  {
    hide Runs; hide Ends; hide Rel; hide EffectAt;
    var h := FindHandler(m.code.handlers, t.pc);
    if h.Some? {
      SortElements(F.handlers, h.value);
    }
    Ended(m, lay, r, s, n, t, Threw(r.c.v));
  }

  // The other direction: the run ends only if the source program does, and only in
  // that way; it goes on forever exactly when no fuel suffices.
  lemma CompileExact(m: Machine, lay: Layout, body: Stmts, st: Store, s0: State)
    requires Compiled(m, lay, body) && WfLayout(lay) && WfStmts(lay, body) && Entered(lay, st, s0)
    ensures Diverges(m, s0) <==> forall fuel: nat :: ExecAll(m.host, body, st, s0.tr, fuel).c.OutOfFuel?
    ensures forall f :: Converges(m, s0, f) ==>
              exists fuel: nat :: FinalOf(lay, ExecAll(m.host, body, st, s0.tr, fuel), f)
  {
    hide ExecAll; hide Runs; hide Rel; hide Ends; hide Compiled; hide Converges; hide Lasts; hide FinalOf; hide Going;
    ConvergesOrDiverges(m, s0);
    if forall fuel: nat :: ExecAll(m.host, body, st, s0.tr, fuel).c.OutOfFuel? {
      forall fuel: nat ensures Lasts(m, s0, fuel) {
        CompileCorrect(m, lay, body, st, s0, fuel);
        GoingLasts(m, s0, fuel, ExecAll(m.host, body, st, s0.tr, fuel).tr);
      }
    } else {
      var fuel: nat :| !ExecAll(m.host, body, st, s0.tr, fuel).c.OutOfFuel?;
      CompileCorrect(m, lay, body, st, s0, fuel);
      var f := EndsIn(m, lay, s0, ExecAll(m.host, body, st, s0.tr, fuel));
    }
    forall f | Converges(m, s0, f)
      ensures exists fuel: nat :: FinalOf(lay, ExecAll(m.host, body, st, s0.tr, fuel), f)
    {
      assert !Diverges(m, s0);
      var fuel: nat :| !Lasts(m, s0, fuel);
      var r := ExecAll(m.host, body, st, s0.tr, fuel);
      CompileCorrect(m, lay, body, st, s0, fuel);
      if r.c.OutOfFuel? {
        GoingLasts(m, s0, fuel, r.tr);
        assert false;
      }
      var g := EndsIn(m, lay, s0, ExecAll(m.host, body, st, s0.tr, fuel));
    }
  }

  lemma EndsIn(m: Machine, lay: Layout, s: State, r: SRes) returns (f: Final)
    requires Ends(m, lay, s, r)
    ensures Converges(m, s, f) && FinalOf(lay, r, f)
  {
    hide Converges; hide Rel;
    var res := if r.c.Normal? then Returned(Undefined) else if r.c.Ret? then Returned(r.c.v) else Threw(r.c.v);
    var regs :| Converges(m, s, Final(res, regs, r.tr)) && Rel(lay, r.st, regs);
    f := Final(res, regs, r.tr);
  }

  // The final frame f is the source result r.
  ghost predicate FinalOf(lay: Layout, r: SRes, f: Final) {
    && f.tr == r.tr && Rel(lay, r.st, f.regs)
    && match r.c
       case Normal => f.res == Returned(Undefined)
       case Ret(v) => f.res == Returned(v)
       case Thr(v) => f.res == Threw(v)
       case _ => false
  }
}
