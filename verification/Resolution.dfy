/**
 Jump resolution against ECMA-262.  The standard lets a loop carry a set of labels
 (section 14.13.4); the lowering gives it the innermost one and hides a labelled loop or
 switch from unlabelled jumps (crates/v12-bccompiler/src/stmt.rs:1473-1607).  Here is
 exactly when the two agree, and what becomes of programs on which they do not.
 */
module Resolution {
  import opened Words
  import opened Machine
  import opened Assembly
  import opened Source
  import opened Lowering
  import opened ExprCorrect
  import opened StmtFrame
  import opened Compile

  // ---- what the standard says -------------------------------------------

  // What an entry of the loop stack stands for; a label is direct when the statement
  // it is on is itself a loop or a labelled statement.
  datatype Kind = LoopKind | SwitchKind | BlockKind(direct: bool)

  predicate KindOk(lc: LoopCtx, k: Kind) {
    match k
    case LoopKind => lc.cont.Some?
    case SwitchKind => lc.cont.None?
    case BlockKind(_) => lc.cont.None? && lc.name.Some?
  }

  ghost predicate KindsOk(loops: seq<LoopCtx>, kinds: seq<Kind>) {
    |kinds| == |loops| && forall i :: 0 <= i < |loops| ==> KindOk(loops[i], kinds[i])
  }

  // The label set of entry i: its own label and those of the labels stacked on it.
  function LabelSet(loops: seq<LoopCtx>, kinds: seq<Kind>, i: nat): set<Source.Label>
    requires i < |loops| == |kinds|
  {
    (if loops[i].name.Some? then {loops[i].name.value} else {})
    + if i > 0 && kinds[i - 1] == BlockKind(true) then LabelSet(loops, kinds, i - 1) else {}
  }

  // What an unlabelled jump can go to.
  predicate Catches(k: Kind, isCont: bool) { k.LoopKind? || (!isCont && k.SwitchKind?) }

  // The entries ECMA-262 lets a jump take: a labelled break leaves the statement with
  // that label, a labelled continue goes to a loop with that label in its set, an
  // unlabelled break to a loop or switch and an unlabelled continue to a loop.
  predicate Takes(loops: seq<LoopCtx>, kinds: seq<Kind>, i: nat, want: Option<Source.Label>, isCont: bool)
    requires i < |loops| == |kinds|
  {
    if want.None? then Catches(kinds[i], isCont)
    else if isCont then kinds[i].LoopKind? && want.value in LabelSet(loops, kinds, i)
    else loops[i].name == want
  }

  // The innermost of the first n entries the jump may take.
  function StdPosition(loops: seq<LoopCtx>, kinds: seq<Kind>, want: Option<Source.Label>, isCont: bool,
                       n: nat): (p: Option<nat>)
    requires n <= |loops| == |kinds|
    ensures p.Some? ==> p.value < n && Takes(loops, kinds, p.value, want, isCont)
    ensures p.Some? ==> forall i :: p.value < i < n ==> !Takes(loops, kinds, i, want, isCont)
    ensures p.None? ==> forall i :: 0 <= i < n ==> !Takes(loops, kinds, i, want, isCont)
  {
    if n == 0 then None
    else if Takes(loops, kinds, n - 1, want, isCont) then Some(n - 1)
    else StdPosition(loops, kinds, want, isCont, n - 1)
  }

  // ---- what the lowering does -------------------------------------------

  // The entry the emitted jump goes to; none when lowering fails.
  function Target(loops: seq<LoopCtx>, want: Option<Source.Label>, isCont: bool): (p: Option<nat>)
    ensures p.Some? ==> p.value < |loops| && (isCont ==> loops[p.value].cont.Some?)
  {
    var p := RPosition(loops, want, isCont);
    if p.Some? && isCont && loops[p.value].cont.None? then None else p
  }

  // A jump without a target fails; any other one goes to its target's label.
  lemma TargetTaken(cx: Ctx, loops: seq<LoopCtx>, want: Option<Source.Label>, isCont: bool)
    ensures var p := Target(loops, want, isCont);
            var f := CompJumpOut(cx, loops, want, isCont);
            if p.None? then f.failed
            else f == EmitGoto(EmitCloses(cx, Left(loops, p.value, isCont)), GoesTo(loops[p.value], isCont))
  {
    hide RPosition; hide EmitCloses; hide EmitGoto;
  }

  // The entries a jump to entry p leaves: a continue stays in its loop.
  function Left(loops: seq<LoopCtx>, p: nat, isCont: bool): seq<LoopCtx>
    requires p < |loops|
  {
    if isCont then loops[p + 1..] else loops[p..]
  }

  function GoesTo(lc: LoopCtx, isCont: bool): nat
    requires isCont ==> lc.cont.Some?
  {
    if isCont then lc.cont.value else lc.brk
  }

  // The target keeps its meaning under the lowering's rules: an unlabelled jump needs
  // one without a label, a labelled continue one whose innermost label is the label
  // named, not reused further in.
  predicate Honoured(loops: seq<LoopCtx>, q: nat, want: Option<Source.Label>, isCont: bool)
    requires q < |loops|
  {
    if want.None? then loops[q].name.None?
    else isCont ==> loops[q].name == want && forall i :: q < i < |loops| ==> loops[i].name != want
  }

  // The lowering resolves a jump as the standard does if and only if the standard has
  // no target for it or the target is honoured.
  lemma ResolvesRight(loops: seq<LoopCtx>, kinds: seq<Kind>, want: Option<Source.Label>, isCont: bool)
    requires KindsOk(loops, kinds)
    ensures var q := StdPosition(loops, kinds, want, isCont, |loops|);
            Target(loops, want, isCont) == q <==> (q.Some? ==> Honoured(loops, q.value, want, isCont))
  {
    var (p, q) := (RPosition(loops, want, isCont), StdPosition(loops, kinds, want, isCont, |loops|));
    if p.Some? {
      assert KindOk(loops[p.value], kinds[p.value]);

      assert Target(loops, want, isCont) == p ==> Takes(loops, kinds, p.value, want, isCont);
    }
    if q.Some? {
      assert KindOk(loops[q.value], kinds[q.value]);
      if Honoured(loops, q.value, want, isCont) {
        assert Resolves(loops[q.value], want, isCont)
          && forall i :: q.value < i < |loops| ==> !Resolves(loops[i], want, isCont) by {
          assert KindOk(loops[q.value], kinds[q.value]);
          forall i | q.value < i < |loops| ensures !Resolves(loops[i], want, isCont) {
            assert KindOk(loops[i], kinds[i]) && !Takes(loops, kinds, i, want, isCont);
          }
        }
      }
    }
  }

  // ---- whole programs ---------------------------------------------------

  // The entries a statement pushes, as far as resolution looks at them.
  function LoopEntry(name: Option<Source.Label>): LoopCtx { LoopCtx(0, Some(0), name, None) }

  function BlockEntry(name: Option<Source.Label>): LoopCtx { LoopCtx(0, None, name, None) }

  predicate Direct(s: Stmt) { s.While? || s.DoWhile? || s.For? || s.ForOf? || s.Labeled? }

  predicate JumpHonoured(loops: seq<LoopCtx>, kinds: seq<Kind>, want: Option<Source.Label>, isCont: bool)
    requires |loops| == |kinds|
  {
    var q := StdPosition(loops, kinds, want, isCont, |loops|);
    q.Some? && Honoured(loops, q.value, want, isCont)
  }

  // Every jump in s has a target by the standard, and the target is honoured.
  predicate AllHonoured(loops: seq<LoopCtx>, kinds: seq<Kind>, s: Stmt)
    requires |loops| == |kinds|
    decreases s
  {
    match s
    case Block(body) => AllHonouredS(loops, kinds, body)
    case If(_, a, b) => AllHonoured(loops, kinds, a) && AllHonoured(loops, kinds, b)
    case While(name, _, body) => AllHonoured(loops + [LoopEntry(name)], kinds + [LoopKind], body)
    case DoWhile(name, body, _) => AllHonoured(loops + [LoopEntry(name)], kinds + [LoopKind], body)
    case For(name, _, _, _, body) => AllHonoured(loops + [LoopEntry(name)], kinds + [LoopKind], body)
    case ForOf(name, _, _, body) => AllHonoured(loops + [LoopEntry(name)], kinds + [LoopKind], body)
    case Labeled(lab, body) => AllHonoured(loops + [BlockEntry(Some(lab))], kinds + [BlockKind(Direct(body))], body)
    case Switch(name, _, cases) => AllHonouredC(loops + [BlockEntry(name)], kinds + [SwitchKind], cases)
    case Break(l) => JumpHonoured(loops, kinds, l, false)
    case Continue(l) => JumpHonoured(loops, kinds, l, true)
    case _ => true
  }

  predicate AllHonouredS(loops: seq<LoopCtx>, kinds: seq<Kind>, ss: Stmts)
    requires |loops| == |kinds|
    decreases ss
  {
    ss.Cons? ==> AllHonoured(loops, kinds, ss.head) && AllHonouredS(loops, kinds, ss.tail)
  }

  predicate AllHonouredC(loops: seq<LoopCtx>, kinds: seq<Kind>, cs: Cases)
    requires |loops| == |kinds|
    decreases cs
  {
    cs.Case? ==> AllHonouredS(loops, kinds, cs.body) && AllHonouredC(loops, kinds, cs.rest)
  }

  // The locals a program names are laid out, and its operators are known.
  predicate Laid(lay: Layout, s: Stmt)
    decreases s
  {
    match s
    case ExprStmt(e) => WfExpr(lay, e)
    case Block(body) => LaidS(lay, body)
    case If(t, a, b) => WfExpr(lay, t) && Laid(lay, a) && Laid(lay, b)
    case While(_, t, body) => WfExpr(lay, t) && Laid(lay, body)
    case DoWhile(_, body, t) => WfExpr(lay, t) && Laid(lay, body)
    case For(_, i, c, u, body) => WfOpt(lay, i) && WfOpt(lay, c) && WfOpt(lay, u) && Laid(lay, body)
    case ForOf(_, x, rhs, body) => x in lay.vars && WfExpr(lay, rhs) && Laid(lay, body)
    case Labeled(_, body) => Laid(lay, body)
    case Switch(_, d, cases) => WfExpr(lay, d) && LaidC(lay, cases)
    case Return(arg) => WfOpt(lay, arg)
    case Throw(e) => WfExpr(lay, e)
    case _ => true
  }

  predicate LaidS(lay: Layout, ss: Stmts)
    decreases ss
  {
    ss.Cons? ==> Laid(lay, ss.head) && LaidS(lay, ss.tail)
  }

  predicate LaidC(lay: Layout, cs: Cases)
    decreases cs
  {
    cs.Case? ==> WfOpt(lay, cs.test) && LaidS(lay, cs.body) && LaidC(lay, cs.rest)
  }

  // An unlabelled jump would take entry q, which carries a label: everything further in
  // is skipped by the standard.
  predicate Shadowed(loops: seq<LoopCtx>, kinds: seq<Kind>, q: nat, isCont: bool)
    requires |loops| == |kinds|
  {
    && q < |loops| && loops[q].name.Some? && Catches(kinds[q], isCont)
    && forall i :: q < i < |kinds| ==> !Catches(kinds[i], isCont)
  }

  predicate Bare(s: Stmt, isCont: bool) { if isCont then BareContinue(s) else BareBreak(s) }

  predicate BareS(ss: Stmts, isCont: bool) { if isCont then BareContinueS(ss) else BareBreakS(ss) }

  predicate BareC(cs: Cases, isCont: bool) { if isCont then BareContinueC(cs) else BareBreakC(cs) }

  // Where every jump is honoured, none that is unlabelled leaves for a labelled target.
  lemma {:induction false} NoneBare(loops: seq<LoopCtx>, kinds: seq<Kind>, s: Stmt, q: nat, isCont: bool)
    requires |loops| == |kinds| && Shadowed(loops, kinds, q, isCont) && AllHonoured(loops, kinds, s)
    ensures !Bare(s, isCont)
    decreases s
  {
    hide StdPosition; hide LabelSet;
    match s
    case Block(body) => NoneBareS(loops, kinds, body, q, isCont);
    case If(_, a, b) => NoneBare(loops, kinds, a, q, isCont); NoneBare(loops, kinds, b, q, isCont);
    case Labeled(lab, body) =>
      NoneBare(loops + [BlockEntry(Some(lab))], kinds + [BlockKind(Direct(body))], body, q, isCont);
    case Switch(name, _, cases) =>
      if isCont { NoneBareC(loops + [BlockEntry(name)], kinds + [SwitchKind], cases, q, isCont); }
    case Break(_) => assert !isCont ==> Takes(loops, kinds, q, None, false);
    case Continue(_) => assert isCont ==> Takes(loops, kinds, q, None, true);
    case _ =>
  }

  lemma {:induction false} NoneBareS(loops: seq<LoopCtx>, kinds: seq<Kind>, ss: Stmts, q: nat, isCont: bool)
    requires |loops| == |kinds| && Shadowed(loops, kinds, q, isCont) && AllHonouredS(loops, kinds, ss)
    ensures !BareS(ss, isCont)
    decreases ss
  {
    if ss.Cons? {
      NoneBare(loops, kinds, ss.head, q, isCont);
      NoneBareS(loops, kinds, ss.tail, q, isCont);
    }
  }

  lemma {:induction false} NoneBareC(loops: seq<LoopCtx>, kinds: seq<Kind>, cs: Cases, q: nat, isCont: bool)
    requires |loops| == |kinds| && Shadowed(loops, kinds, q, isCont) && AllHonouredC(loops, kinds, cs)
    ensures !BareC(cs, isCont)
    decreases cs
  {
    if cs.Case? {
      NoneBareS(loops, kinds, cs.body, q, isCont);
      NoneBareC(loops, kinds, cs.rest, q, isCont);
    }
  }

  lemma {:induction false} HonouredWf(lay: Layout, loops: seq<LoopCtx>, kinds: seq<Kind>, s: Stmt)
    requires |loops| == |kinds| && AllHonoured(loops, kinds, s) && Laid(lay, s)
    ensures WfStmt(lay, s)
    decreases s, 0
  {
    hide StdPosition; hide LabelSet; hide WfExpr; hide BareBreak; hide BareContinue; hide BareBreakC;
    match s
    case Block(body) => HonouredWfS(lay, loops, kinds, body);
    case If(_, a, b) => HonouredWf(lay, loops, kinds, a); HonouredWf(lay, loops, kinds, b);
    case Labeled(lab, body) =>
      HonouredWf(lay, loops + [BlockEntry(Some(lab))], kinds + [BlockKind(Direct(body))], body);
    case Switch(name, _, cases) =>
      var (ls, ks) := (loops + [BlockEntry(name)], kinds + [SwitchKind]);
      HonouredWfC(lay, ls, ks, cases);
      if name.Some? { NoneBareC(ls, ks, cases, |loops|, false); }
    case While(name, _, _) => LoopWf(lay, loops, kinds, name, s.body1);
    case DoWhile(name, _, _) => LoopWf(lay, loops, kinds, name, s.body1);
    case For(name, _, _, _, _) => LoopWf(lay, loops, kinds, name, s.body1);
    case ForOf(name, _, _, _) => LoopWf(lay, loops, kinds, name, s.body1);
    case _ =>
  }

  lemma {:induction false} LoopWf(lay: Layout, loops: seq<LoopCtx>, kinds: seq<Kind>, name: Option<Source.Label>,
                                  body: Stmt)
    requires |loops| == |kinds| && AllHonoured(loops + [LoopEntry(name)], kinds + [LoopKind], body) && Laid(lay, body)
    ensures WfStmt(lay, body) && NameOk(name, body)
    decreases body, 1
  {
    var (ls, ks) := (loops + [LoopEntry(name)], kinds + [LoopKind]);
    HonouredWf(lay, ls, ks, body);
    if name.Some? {
      NoneBare(ls, ks, body, |loops|, false);
      NoneBare(ls, ks, body, |loops|, true);
    }
  }

  lemma {:induction false} HonouredWfS(lay: Layout, loops: seq<LoopCtx>, kinds: seq<Kind>, ss: Stmts)
    requires |loops| == |kinds| && AllHonouredS(loops, kinds, ss) && LaidS(lay, ss)
    ensures WfStmts(lay, ss)
    decreases ss, 0
  {
    if ss.Cons? {
      HonouredWf(lay, loops, kinds, ss.head);
      HonouredWfS(lay, loops, kinds, ss.tail);
    }
  }

  lemma {:induction false} HonouredWfC(lay: Layout, loops: seq<LoopCtx>, kinds: seq<Kind>, cs: Cases)
    requires |loops| == |kinds| && AllHonouredC(loops, kinds, cs) && LaidC(lay, cs)
    ensures WfCases(lay, cs)
    decreases cs, 0
  {
    if cs.Case? {
      HonouredWfS(lay, loops, kinds, cs.body);
      HonouredWfC(lay, loops, kinds, cs.rest);
    }
  }

  // Final frame f is what the evaluator says, given enough fuel.
  ghost predicate Evaluated(h: Host, lay: Layout, body: Stmts, st: Store, tr: Trace, f: Final) {
    exists fuel: nat :: FinalOf(lay, ExecAll(h, body, st, tr, fuel), f)
  }

  // A unit that lowers without failing and whose every jump is honoured runs as the
  // evaluator says, in both directions.
  lemma HonouredExact(m: Machine, lay: Layout, body: Stmts, st: Store, s0: State)
    requires Compiled(m, lay, body) && WfLayout(lay) && LaidS(lay, body) && AllHonouredS([], [], body)
             && Entered(lay, st, s0)
    ensures Diverges(m, s0) <==> forall fuel: nat :: ExecAll(m.host, body, st, s0.tr, fuel).c.OutOfFuel?
    ensures forall f :: Converges(m, s0, f) ==> Evaluated(m.host, lay, body, st, s0.tr, f)
  {
    hide Compiled; hide Converges; hide Diverges; hide FinalOf; hide Entered; hide WfStmts; hide LaidS;
    hide AllHonouredS; hide WfLayout; hide ExecAll;
    HonouredWfS(lay, [], [], body);
    CompileExact(m, lay, body, st, s0);
    forall f | Converges(m, s0, f) ensures Evaluated(m.host, lay, body, st, s0.tr, f) {
      var fuel: nat :| FinalOf(lay, ExecAll(m.host, body, st, s0.tr, fuel), f);
    }
  }

  // ---- programs on which they differ ------------------------------------

  const TRUE: Expr := Lit(Bool(true))

  // A `while (true)` fails when its body does.
  lemma BodyFails(cx: Ctx, lay: Layout, loops: seq<LoopCtx>, name: Option<Source.Label>, body: Stmt)
    requires forall cx1, brk, cont :: CompStmt(cx1, lay, loops + [LoopCtx(brk, Some(cont), name, None)], body).failed
    ensures CompStmt(cx, lay, loops, While(name, TRUE, body)).failed
  {
    var s := While(name, TRUE, body);
    var (cx1, top, cont, end) := LoopStart(cx);
    var lc := LoopCtx(end, Some(cont), name, None);
    var cx2 := CompTest(cx1, lay, Some(s.test), end);
    assert Bind(EmitGoto(CompOpt(Bind(CompStmt(cx2, lay, loops + [lc], s.body1), cont), lay, None), top), end).failed;
  }

  // `a: while (true) { break; }` is valid, and rejected.
  lemma NamedLoopRejected(cx: Ctx, lay: Layout)
    ensures CompStmt(cx, lay, [], While(Some("a"), TRUE, Break(None))).failed
  {
    hide RPosition;
    BodyFails(cx, lay, [], Some("a"), Break(None));
  }

  // `a: b: while (true) { continue a; }` is valid, and rejected.
  lemma OuterLabelRejected(cx: Ctx, lay: Layout)
    ensures CompStmt(cx, lay, [], Labeled("a", While(Some("b"), TRUE, Continue(Some("a"))))).failed
  {
    hide RPosition; hide CompForLoop;
    var (cx1, end) := NewLabel(cx);
    var outer := [] + [LoopCtx(end, None, Some("a"), None)];
    forall cx2, brk, cont
      ensures CompStmt(cx2, lay, outer + [LoopCtx(brk, Some(cont), Some("b"), None)], Continue(Some("a"))).failed
    {
      var loops := outer + [LoopCtx(brk, Some(cont), Some("b"), None)];
      assert Resolves(loops[0], Some("a"), true) && !Resolves(loops[1], Some("a"), true);
    }
    BodyFails(cx1, lay, outer, Some("b"), Continue(Some("a")));
  }

  // `while (true) { b: while (true) { break; } }` compiles without an error, to the
  // very code of `a: while (true) { b: while (true) { break a; } }`.
  const INNER: Stmt := While(None, TRUE, While(Some("b"), TRUE, Break(None)))
  const OUTER: Stmt := While(Some("a"), TRUE, While(Some("b"), TRUE, Break(Some("a"))))

  lemma {:induction false} NoCloses(cx: Ctx, ls: seq<LoopCtx>)
    requires forall i :: 0 <= i < |ls| ==> ls[i].iter.None?
    ensures EmitCloses(cx, ls) == cx
    decreases |ls|
  {
    if ls == [] {
    } else {
      NoCloses(cx, ls[..|ls| - 1]);
    }
  }

  lemma SameJump(cx: Ctx, lc: LoopCtx, mc: LoopCtx)
    requires lc.iter == mc.iter == None && mc.name == Some("b")
    ensures CompJumpOut(cx, [lc.(name := None), mc], None, false) ==
            CompJumpOut(cx, [lc.(name := Some("a")), mc], Some("a"), false)
  {
    hide EmitGoto;
    var (l1, l2) := ([lc.(name := None), mc], [lc.(name := Some("a")), mc]);
    assert l1[..1] == [l1[0]] && l2[..1] == [l2[0]];
    assert RPosition(l1, None, false) == RPosition(l2, Some("a"), false) == Some(0);
    NoCloses(cx, l1[0..]);
    NoCloses(cx, l2[0..]);
  }

  lemma SameCode(cx: Ctx, lay: Layout)
    ensures CompStmt(cx, lay, [], INNER) == CompStmt(cx, lay, [], OUTER)
  {
    hide CompTest; hide LoopStart;
    var (cx1, top, cont, end) := LoopStart(cx);
    var cx2 := CompTest(cx1, lay, Some(TRUE), end);
    var lc := LoopCtx(end, Some(cont), None, None);
    assert CompStmt(cx2, lay, [lc.(name := None)], INNER.body1) ==
      CompStmt(cx2, lay, [lc.(name := Some("a"))], OUTER.body1) by {
      var (cx1, top, cont, end) := LoopStart(cx2);
      var cx21 := CompTest(cx1, lay, Some(TRUE), end);
      var mc := LoopCtx(end, Some(cont), Some("b"), None);
      var (l1, l2) := ([lc.(name := None)] + [mc], [lc.(name := Some("a"))] + [mc]);
      assert l1 == [lc.(name := None), mc] && l2 == [lc.(name := Some("a")), mc];
      SameJump(cx21, lc, mc);
      assert CompStmt(cx21, lay, l1, Break(None)) == CompStmt(cx21, lay, l2, Break(Some("a")));
    }
    assert [] + [lc] == [lc.(name := None)] && [] + [lc.(name := Some("a"))] == [lc.(name := Some("a"))];
  }

  // The source program never ends; its code returns at once.
  lemma SilentlyRetargeted(m: Machine, lay: Layout, st: Store, s0: State)
    requires Compiled(m, lay, Cons(INNER, Nil)) && WfLayout(lay) && Entered(lay, st, s0)
    ensures forall fuel: nat :: ExecAll(m.host, Cons(INNER, Nil), st, s0.tr, fuel).c.OutOfFuel?
    ensures exists regs :: Converges(m, s0, Final(Returned(Undefined), regs, s0.tr))
  {
    forall fuel: nat ensures ExecAll(m.host, Cons(INNER, Nil), st, s0.tr, fuel).c.OutOfFuel? {
      InnerForever(m.host, st, s0.tr, fuel);
    }
    RetargetedEnds(m, lay, st, s0);
  }

  lemma {:induction false} InnerForever(h: Host, st: Store, tr: Trace, fuel: nat)
    ensures Execute(h, INNER, st, tr, fuel) == SRes(OutOfFuel, st, tr)
    decreases fuel
  {
    if fuel > 0 {
      assert Execute(h, INNER.body1.body1, st, tr, fuel) == SRes(Brk(None), st, tr);
      assert Execute(h, INNER.body1, st, tr, fuel) == SRes(Normal, st, tr);
      InnerForever(h, st, tr, fuel - 1);
    }
  }

  lemma RetargetedEnds(m: Machine, lay: Layout, st: Store, s0: State)
    requires Compiled(m, lay, Cons(INNER, Nil)) && WfLayout(lay) && Entered(lay, st, s0)
    ensures exists regs :: Converges(m, s0, Final(Returned(Undefined), regs, s0.tr))
  {
    hide Converges; hide Rel;
    var body := Cons(OUTER, Nil);
    assert CompUnit(lay, body) == CompUnit(lay, Cons(INNER, Nil)) by {
      hide CompStmt;
      SameCode(NewCtx(lay), lay);
    }
    assert Compiled(m, lay, body);
    OuterWf(lay);
    OuterEnds(m.host, st, s0.tr);
    CompileCorrect(m, lay, body, st, s0, 1);
  }

  lemma OuterWf(lay: Layout)
    ensures WfStmts(lay, Cons(OUTER, Nil))
  {
    assert WfStmt(lay, OUTER.body1);
    assert !BareBreak(OUTER.body1) && !BareContinue(OUTER.body1);
  }

  lemma OuterEnds(h: Host, st: Store, tr: Trace)
    ensures ExecAll(h, Cons(OUTER, Nil), st, tr, 1) == SRes(Normal, st, tr)
  {
    assert Execute(h, OUTER.body1.body1, st, tr, 1) == SRes(Brk(Some("a")), st, tr);
    assert Execute(h, OUTER.body1, st, tr, 1) == SRes(Brk(Some("a")), st, tr);
    assert Execute(h, OUTER, st, tr, 1) == SRes(Normal, st, tr);
  }

  // And it does compile, wherever there is room for its temporaries.
  lemma SilentlyCompiles(cx: Ctx, lay: Layout)
    requires !cx.failed && cx.top + 4 <= MAX_REGS
    ensures !CompStmt(cx, lay, [], INNER).failed
  {
    hide CompTest; hide LoopStart; hide CompJumpOut;
    var (cx1, top, cont, end) := LoopStart(cx);
    Starts(cx);
    var cx2 := CompTest(cx1, lay, Some(TRUE), end);
    TestRoom(cx1, lay, end);
    var lc := LoopCtx(end, Some(cont), None, None);
    var (cx3, top1, cont1, end1) := LoopStart(cx2);
    Starts(cx2);
    var cx4 := CompTest(cx3, lay, Some(TRUE), end1);
    TestRoom(cx3, lay, end1);
    var mc := LoopCtx(end1, Some(cont1), Some("b"), None);
    var loops := [lc, mc];
    assert [] + [lc] == [lc] && [lc] + [mc] == loops;
    SameJump(cx4, lc, mc);
    assert loops == [lc.(name := None), mc];
    JumpRoom(cx4, lc, mc);
    var cx5 := CompJumpOut(cx4, loops, None, false);
    assert CompStmt(cx2, lay, [lc], INNER.body1) == Bind(EmitGoto(Bind(cx5, cont1), top1), end1);
  }

  lemma Starts(cx: Ctx)
    ensures var (cx1, top, cont, end) := LoopStart(cx);
            && cx1.top == cx.top && cx1.failed == cx.failed
            && |cx1.labels| == |cx.labels| + 3 && (top, cont, end) == (|cx.labels|, |cx.labels| + 1, |cx.labels| + 2)
            && cx1.labels[cont].None? && cx1.labels[end].None? && cx1.labels[..|cx.labels|] == cx.labels
  {
  }

  lemma TestRoom(cx: Ctx, lay: Layout, end: nat)
    requires !cx.failed && cx.top + 2 <= MAX_REGS
    ensures var cx1 := CompTest(cx, lay, Some(TRUE), end);
            !cx1.failed && cx1.top == cx.top + 2 && cx1.labels == cx.labels
  {
    hide EncodeRegs; hide EncodeIntW; hide Raws;
  }

  lemma JumpRoom(cx: Ctx, lc: LoopCtx, mc: LoopCtx)
    requires lc.iter == mc.iter == None && lc.name == None && mc.name == Some("b")
    ensures CompJumpOut(cx, [lc, mc], None, false) == EmitGoto(cx, lc.brk)
  {
    hide EmitGoto;
    var ls := [lc, mc];
    assert ls[..1] == [lc];
    assert RPosition(ls, None, false) == Some(0);
    NoCloses(cx, ls[0..]);
  }
}
