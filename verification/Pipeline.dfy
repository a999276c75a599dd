/**
 The passes put together, as `finish` runs them (crates/v12-bccompiler/src/model.rs):
 assembled and sorted code is optimized, then validated.
 */
module Pipeline {
  import opened Words
  import opened Machine
  import opened Assembly
  import opened Source
  import opened Lowering
  import opened Growth
  import opened ExprCorrect
  import opened StmtFrame
  import opened Compile
  import opened Simulation
  import opened PeepholeSpec
  import opened PeepholeLayout
  import opened PeepholeSafe
  import opened PeepholeCorrect
  import opened PeepholeAccepts
  import opened PeepholeSimple
  import opened Validator
  import opened ListedCode
  import Emitter
  import ForOfFrame
  import Peephole

  // The machine that runs the optimized code of m.
  function Tuned(m: Machine): Machine { m.(code := Optimized(m.code, MAX_ROUNDS)) }

  // The result and the trace of a final frame are those of the source result r.
  predicate Answers(r: SRes, f: Final) {
    && f.tr == r.tr
    && match r.c
       case Normal => f.res == Returned(Undefined)
       case Ret(v) => f.res == Returned(v)
       case Thr(v) => f.res == Threw(v)
       case _ => false
  }

  // What the pass may not do to the code of a unit: no payload word reads as a branch,
  // and no round folds a negative zero or deletes a branch behind a register prefix.
  ghost predicate Harmless(c: Code) { PayloadOk(c.instrs) && CleanRounds(c, MAX_ROUNDS) }

  // Everything else the pass relies on holds of every unit.
  lemma UnitReady(m: Machine, lay: Layout, body: Stmts)
    requires Compiled(m, lay, body) && WfLayout(lay) && WfStmts(lay, body) && Harmless(m.code)
    ensures Stable(m.code) && CleanRounds(m.code, MAX_ROUNDS)
  {
    hide CompUnit; hide PayloadOk; hide CleanRounds; hide Stable; hide WfLayout; hide WfStmts; hide Assemble;
    UnitStable(lay, body);
  }

  // Harm can be ruled out by looking at the code before the pass runs: a unit of at most
  // 256 registers that does not multiply, without payload that reads as a branch.
  lemma SimpleHarmless(m: Machine, lay: Layout, body: Stmts)
    requires Compiled(m, lay, body) && WfLayout(lay) && WfStmts(lay, body) && CompUnit(lay, body).high <= 256
    requires NoProducts(m.code.instrs) && PayloadOk(m.code.instrs)
    ensures Harmless(m.code)
  {
    hide CompUnit; hide PayloadOk; hide Stable; hide WfLayout; hide WfStmts; hide Assemble; hide NoProducts;
    hide Simple; hide CleanRounds;
    UnitStable(lay, body);
    UnitSimple(lay, body);
    SimpleRounds(m.code, MAX_ROUNDS);
  }

  // The optimized code of a unit does what the source evaluator says: it ends exactly
  // when the evaluator has a result, with that result and that trace of requests.
  lemma PipelineCorrect(m: Machine, lay: Layout, body: Stmts, st: Store, s0: State)
    requires Compiled(m, lay, body) && WfLayout(lay) && WfStmts(lay, body) && Entered(lay, st, s0) && Harmless(m.code)
    ensures Diverges(Tuned(m), s0) <==> forall fuel: nat :: ExecAll(m.host, body, st, s0.tr, fuel).c.OutOfFuel?
    ensures forall f :: Converges(Tuned(m), s0, f) ==> AnswersSome(m.host, body, st, s0.tr, f)
    ensures forall fuel: nat :: !ExecAll(m.host, body, st, s0.tr, fuel).c.OutOfFuel? ==>
              exists f :: Converges(Tuned(m), s0, f) && Answers(ExecAll(m.host, body, st, s0.tr, fuel), f)
  {
    hide Compiled; hide ExecAll; hide Rel; hide Stable; hide CleanRounds; hide Converges; hide Diverges; hide Optimized;
    hide AllFolded; hide Alike;
    hide FinalOf; hide Answers;
    UnitReady(m, lay, body);
    OptimizeCorrect(m, s0);
    AlikeDiverges(m, s0, Tuned(m), s0, AllFolded(m.code, MAX_ROUNDS));
    CompileExact(m, lay, body, st, s0);
    forall f | Converges(Tuned(m), s0, f) ensures AnswersSome(m.host, body, st, s0.tr, f) {
      assert AnswersSome(m.host, body, st, s0.tr, f) by {
        OptimizeCorrect(m, s0);
        var g := AlikeBackward(m, s0, Tuned(m), s0, AllFolded(m.code, MAX_ROUNDS), f);
        CompileExact(m, lay, body, st, s0);
        var fuel: nat :| FinalOf(lay, ExecAll(m.host, body, st, s0.tr, fuel), g);
        SameAnswer(lay, ExecAll(m.host, body, st, s0.tr, fuel), g, f, AllFolded(m.code, MAX_ROUNDS));
      }
    }
    forall fuel: nat | !ExecAll(m.host, body, st, s0.tr, fuel).c.OutOfFuel?
      ensures exists f :: Converges(Tuned(m), s0, f) && Answers(ExecAll(m.host, body, st, s0.tr, fuel), f)
    {
      CompileCorrect(m, lay, body, st, s0, fuel);
      var g := EndsIn(m, lay, s0, ExecAll(m.host, body, st, s0.tr, fuel));
      var f := AlikeForward(m, s0, Tuned(m), s0, AllFolded(m.code, MAX_ROUNDS), g);
      SameAnswer(lay, ExecAll(m.host, body, st, s0.tr, fuel), g, f, AllFolded(m.code, MAX_ROUNDS));
    }
  }

  // The final frame is what the evaluator says, given enough fuel.
  ghost predicate AnswersSome(h: Host, body: Stmts, st: Store, tr: Trace, f: Final) {
    exists fuel: nat :: Answers(ExecAll(h, body, st, tr, fuel), f)
  }

  lemma SameAnswer(lay: Layout, r: SRes, g: Final, f: Final, dead: set<nat>)
    requires FinalOf(lay, r, g) && SameOutside(g, f, dead)
    ensures Answers(r, f)
  {
    hide Rel; hide AgreeOutside;
  }

  // ---- validation -------------------------------------------------------

  // The budget the emitter reserves for a unit.
  ghost predicate Budget(m: Machine, lay: Layout, body: Stmts, maxRegs: nat) {
    CompUnit(lay, body).high <= maxRegs && forall i :: 0 <= i < |m.code.handlers| ==> m.code.handlers[i].depth < maxRegs
  }

  // Validation accepts the optimized code of every unit, with the unit's own budget.
  lemma PipelineAccepted(m: Machine, lay: Layout, body: Stmts, maxRegs: nat)
    requires Compiled(m, lay, body) && WfLayout(lay) && WfStmts(lay, body) && Harmless(m.code)
             && Budget(m, lay, body, maxRegs)
    ensures var c := Tuned(m).code;
            Accepts(c.instrs, |c.consts|, maxRegs) && Stable(c) && HandlersFramed(c, maxRegs)
            && Contained(c.instrs, maxRegs)
  {
    hide CompUnit;

    UnitReady(m, lay, body);
    UnitAccepted(lay, body, maxRegs);

    AcceptsOptimized(m.code, maxRegs, MAX_ROUNDS);
    UnitContained(lay, body, maxRegs);
    ContainedOptimized(m.code, maxRegs, MAX_ROUNDS);
    OptimizeAlike(m, State(0, map[], []), MAX_ROUNDS);
    DepthsOptimized(m.code, maxRegs, MAX_ROUNDS);
  }

  // No pass changes the register an exception is delivered to.
  lemma {:induction false} DepthsOptimized(c: Code, maxRegs: nat, k: nat)
    requires forall i :: 0 <= i < |c.handlers| ==> c.handlers[i].depth < maxRegs
    ensures forall i :: 0 <= i < |Optimized(c, k).handlers| ==> Optimized(c, k).handlers[i].depth < maxRegs
    decreases k
  {
    hide Changed; hide MapHandlers; hide Compacted; hide Threaded; hide AnyDeleted;
    if k > 0 {
      DepthsMapped(c.instrs, c.handlers, maxRegs);
      if Changed(c) { DepthsOptimized(RoundOf(c), maxRegs, k - 1); }
    }
  }

  lemma {:induction false} DepthsMapped(ws: Text, hs: seq<Handler>, maxRegs: nat)
    requires forall i :: 0 <= i < |hs| ==> hs[i].depth < maxRegs
    ensures forall i :: 0 <= i < |MapHandlers(ws, hs)| ==> MapHandlers(ws, hs)[i].depth < maxRegs
    decreases |hs|
  {
    if hs != [] { DepthsMapped(ws, hs[..|hs| - 1], maxRegs); }
  }

  // So every run of it is safe: at every reachable state the pc is an instruction or the
  // end, the next instruction's operands are in range and so is everything it reads, the
  // windows of calls included, and nothing outside the frame was written.
  lemma PipelineSafe(m: Machine, lay: Layout, body: Stmts, maxRegs: nat, s: State, n: nat, t: State)
    requires Compiled(m, lay, body) && WfLayout(lay) && WfStmts(lay, body) && Harmless(m.code)
             && Budget(m, lay, body, maxRegs)
    requires s.pc == 0 && (forall r :: r in s.regs ==> r < maxRegs) && Runs(Tuned(m), s, n, t)
    ensures var c := Tuned(m).code;
            && Place(c.instrs, t.pc) && (forall r :: r in t.regs ==> r < maxRegs)
            && (t.pc < |c.instrs| ==> Decode(c.instrs, t.pc).Some? && Decoded(Decode(c.instrs, t.pc).value)
                                      && Safe(Decode(c.instrs, t.pc).value, |c.consts|, maxRegs)
                                      && forall r :: r in UsesAt(c.instrs, t.pc) ==> r < maxRegs)
    ensures Step(Tuned(m), t).Done? ==>
              !Step(Tuned(m), t).f.res.Stuck? || Decode(Tuned(m).code.instrs, t.pc).value.op == GEN_RESUME_MODE
  {
    hide UsesAt;

    PipelineAccepted(m, lay, body, maxRegs);
    StartsAt(Tuned(m).code.instrs, true);
    ValidatorSound(Tuned(m), maxRegs, s, n, t);
  }

  // ---- `finish` ---------------------------------------------------------

  // Lowering, assembly, the peephole pass and validation.  What comes out is the optimized
  // code of the unit, accepted with its budget; and of a well-formed unit that lowers and
  // whose code the pass does not harm, something does come out.
  method FinishFunction(lay: Layout, body: Stmts) returns (r: Option<Code>, maxRegs: nat)
    ensures r.Some? ==> !CompUnit(lay, body).failed && r.value == Optimized(Assemble(CompUnit(lay, body)), MAX_ROUNDS)
    ensures r.Some? ==> Accepts(r.value.instrs, |r.value.consts|, maxRegs) && CompUnit(lay, body).high <= maxRegs
    ensures var F := CompUnit(lay, body);
            !F.failed && |F.items| < 0x1_0000 && WfLayout(lay) && WfStmts(lay, body) && Harmless(Assemble(F)) ==>
              r.Some?
  {
    hide CompStmts; hide Optimized; hide Accepts; hide WfLayout; hide WfStmts; hide Harmless; hide SortHandlers;
    hide ResolveAll;
    var code;
    code, maxRegs := Emitter.CompileFunction(lay, body);
    if code.None? { return None, 0; }
    HandlersInside(lay, body);
    var c := code.value;
    var fb := new Peephole.FunctionBytecode(c.instrs, seq(|c.instrs|, _ => (0, 0)), c.handlers, c.consts);
    assert fb.Bytecode() == c;
    fb.Optimize();
    var err := CheckOperandContract(fb.instrs, |fb.consts|, maxRegs);
    if err.Some? {
      ghost var F := CompUnit(lay, body);
      if WfLayout(lay) && WfStmts(lay, body) && Harmless(Assemble(F)) {
        PipelineAccepted(Machine(c, NOWHERE, false), lay, body, maxRegs);
      }
      return None, maxRegs;
    }
    r := Some(Code(fb.instrs, fb.consts, fb.handlers));
  }

  const NOWHERE: Host := (req, tr) => Ok(Undefined)

  lemma HandlersInside(lay: Layout, body: Stmts)
    requires !CompUnit(lay, body).failed
    ensures var c := Assemble(CompUnit(lay, body));
            forall i :: 0 <= i < |c.handlers| ==>
              c.handlers[i].start <= |c.instrs| && c.handlers[i].end <= |c.instrs| && c.handlers[i].target <= |c.instrs|
  {
    hide CompStmts;
    var F := CompUnit(lay, body);
    var hs := Assemble(F).handlers;
    GrowStmts(NewCtx(lay), lay, [], body);
    forall i | 0 <= i < |hs| ensures hs[i].start <= |F.items| && hs[i].end <= |F.items| && hs[i].target <= |F.items| {
      ForOfFrame.SortElements(F.handlers, hs[i]);
    }
  }
}
