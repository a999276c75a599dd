/**
 The `for-of` protocol at machine level: which handler an error inside the loop
 reaches, what the close-and-rethrow handler does with the guard armed and
 unarmed, and how an exit stub closes the iterator on the way out.
 */
module ForOfFrame {
  import opened Words
  import opened Machine
  import opened Assembly
  import opened Source
  import opened Lowering
  import opened Growth
  import opened Steps
  import opened ExprCorrect
  import opened StmtFrame

  // ---- the handler table ------------------------------------------------

  lemma {:induction false} InsertElements(h: Handler, hs: seq<Handler>, x: Handler)
    ensures x in Insert(h, hs) <==> x == h || x in hs
    decreases |hs|
  {
    if !(hs == [] || Before(h, hs[0])) {
      InsertElements(h, hs[1..], x);
      assert hs == [hs[0]] + hs[1..];
    }
  }

  // Sorting the handlers neither drops nor invents one.
  lemma {:induction false} SortElements(hs: seq<Handler>, x: Handler)
    ensures x in SortHandlers(hs) <==> x in hs
    decreases |hs|
  {
    if hs != [] {
      SortElements(hs[1..], x);
      InsertElements(hs[0], SortHandlers(hs[1..]), x);
      assert hs == [hs[0]] + hs[1..];
    }
  }

  // ---- the pieces of a loop ---------------------------------------------

  datatype Tail = Tail(back: Ctx, out: Ctx, over: nat, test: Ctx, skip: nat, close: Ctx, rethrow: Ctx, f: Ctx) {
    // Where the handler starts.
    function Entry(): nat { |test.items| }
  }

  function TailOf(c: Ctx, h: Head): Tail {
    var back := Bind(c, h.cont);
    var (out, over) := NewLabel(Bind(EmitGoto(back, h.top), h.end));
    var (test, skip) := NewLabel(EmitGoto(out, over));
    var close := EmitJump(test, JUMP_IF_TRUE, h.guard, skip);
    var rethrow := Bind(EmitReg3(close, ITERATOR_CLOSE, h.iter, 0, 0), skip);
    Tail(back, out, over, test, skip, close, rethrow, CompForOfTail(c, h))
  }

  // The tail's words and labels in the finished program.
  ghost predicate TailIn(F: Ctx, c: Ctx, h: Head, tl: Tail) {
    && In(EmitGoto(tl.back, h.top), F) && |tl.back.items| == |c.items|
    && In(EmitGoto(tl.out, tl.over), F)
    && In(EmitJump(tl.test, JUMP_IF_TRUE, h.guard, tl.skip), F)
    && In(EmitReg3(tl.close, ITERATOR_CLOSE, h.iter, 0, 0), F)
    && In(EmitReg3(tl.rethrow, THROW, h.exc, 0, 0), F)
    && |EmitJump(tl.test, JUMP_IF_TRUE, h.guard, tl.skip).items| == |tl.close.items|
    && |EmitReg3(tl.close, ITERATOR_CLOSE, h.iter, 0, 0).items| == |tl.rethrow.items|
    && |EmitReg3(tl.rethrow, THROW, h.exc, 0, 0).items| == |tl.f.items|
    && |c.items| <= |tl.out.items| <= |tl.test.items| <= |tl.close.items| <= |tl.rethrow.items| <= |tl.f.items|
    && h.cont < |F.labels| && F.labels[h.cont] == Some(|c.items|)
    && h.end < |F.labels| && F.labels[h.end] == Some(|tl.out.items|)
    && tl.over < |F.labels| && F.labels[tl.over] == Some(|tl.f.items|)
    && tl.skip < |F.labels| && F.labels[tl.skip] == Some(|tl.rethrow.items|)
    && tl.f.handlers == c.handlers + [Handler(h.tryStart, tl.Entry(), tl.Entry(), h.exc)]
    && tl.f.top == c.top && In(c, F)
  }

  lemma TailThere(F: Ctx, c: Ctx, h: Head)
    requires In(CompForOfTail(c, h), F)
    ensures TailIn(F, c, h, TailOf(c, h))
  {
    var tl := TailOf(c, h);
    var t2 := EmitGoto(tl.back, h.top);
    var t3 := Bind(t2, h.end);
    var t5 := EmitGoto(tl.out, tl.over);
    var t8 := EmitReg3(tl.close, ITERATOR_CLOSE, h.iter, 0, 0);
    var t10 := EmitReg3(tl.rethrow, THROW, h.exc, 0, 0);
    var t11 := Bind(t10, tl.over);

    BindIn(t10, tl.over, F);
    RegsShape(tl.rethrow, THROW, h.exc, 0, 0, 7); PlainIn(tl.rethrow, t10, F);
    BindIn(t8, tl.skip, F);
    RegsShape(tl.close, ITERATOR_CLOSE, h.iter, 0, 0, 7); PlainIn(tl.close, t8, F);
    JumpShape(tl.test, JUMP_IF_TRUE, h.guard, tl.skip); PlainIn(tl.test, tl.close, F);
    LabelIn(t5, F);
    JumpShape(tl.out, JUMP, 0, tl.over); PlainIn(tl.out, t5, F);
    LabelIn(t3, F);
    BindIn(t2, h.end, F);
    JumpShape(tl.back, JUMP, 0, h.top); PlainIn(tl.back, t2, F);
    BindIn(c, h.cont, F);
  }

  // ---- geometry ---------------------------------------------------------

  function Own(h: Head, tl: Tail): Handler { Handler(h.tryStart, tl.Entry(), tl.Entry(), h.exc) }

  // Inside the loop, errors the body's own loops do not catch reach this loop's
  // handler; before the loop and in the handler itself they leave the region.
  ghost predicate Geo(m: Machine, F: Ctx, lay: Layout, b: Ctx, h: Head, c: Ctx, tl: Tail) {
    && World(m, F, lay) && TailIn(F, c, h, tl)
    && |b.items| <= h.tryStart < |h.cx.items| <= |c.items|
    && lay.localsEnd < b.top <= h.iter < h.guard < h.exc < h.cx.top <= c.top <= MAX_REGS
    && (forall pc :: h.tryStart <= pc < tl.Entry() && Uncovered(h.cx, c, pc) ==>
          FindHandler(m.code.handlers, pc) == Some(Own(h, tl)))
    && (forall pc :: h.tryStart <= pc < |h.cx.items| ==> Uncovered(h.cx, c, pc))
    && (forall pc :: tl.Entry() <= pc < |tl.f.items| ==> Uncovered(b, tl.f, pc))
    && (forall pc :: |b.items| <= pc < h.tryStart ==> Uncovered(b, tl.f, pc))
  }

  lemma OwnHandler(F: Ctx, open: set<nat>, b: Ctx, h: Head, c: Ctx, tl: Tail, pc: nat)
    requires Outer(tl.f, F, open) && Earlier(b) && (forall o :: o in open ==> o < |b.items|)
    requires b.handlers == h.cx.handlers && h.cx.handlers <= c.handlers && tl.f.handlers == c.handlers + [Own(h, tl)]
    requires |b.items| <= h.tryStart && tl.Entry() <= |tl.f.items|
    requires h.tryStart <= pc < tl.Entry() && Uncovered(h.cx, c, pc)
    ensures FindHandler(SortHandlers(F.handlers), pc) == Some(Own(h, tl))
  {
    var k := |c.handlers|;
    assert F.handlers[k] == tl.f.handlers[k] == Own(h, tl);
    forall j | 0 <= j < k ensures !F.handlers[j].Covers(pc) {
      if j < |b.handlers| {
        assert F.handlers[j] == b.handlers[j];
      } else {
        assert F.handlers[j] == tl.f.handlers[j] == c.handlers[j];
      }
    }
    assert FindHandler(SortHandlers(F.handlers), pc) == Some(F.handlers[k]) by {
      var sorted := SortHandlers(F.handlers);
      SortElements(F.handlers, F.handlers[k]);
      var i :| 0 <= i < |sorted| && sorted[i] == F.handlers[k];
      var h := FindHandler(sorted, pc).value;
      SortElements(F.handlers, h);
      var j :| 0 <= j < |F.handlers| && F.handlers[j] == h;
    }
  }

  // The region facts of a `for-of` statement.
  lemma ForOfParts(m: Machine, F: Ctx, lay: Layout, open: set<nat>, b: Ctx, loops: seq<LoopCtx>, s: Stmt)
    requires s.ForOf? && Env(m, F, lay, open, b, CompStmt(b, lay, loops, s), loops) && lay.localsEnd < b.top
    ensures var h := CompForOfHead(b, lay, s.x, s.rhs);
            var lc := LoopCtx(h.end, Some(h.cont), s.name, Some((h.iter, h.guard)));
            var c := CompStmt(h.cx, lay, loops + [lc], s.body1);
            var tl := TailOf(c, h);
            && tl.f == CompStmt(b, lay, loops, s)
            && Geo(m, F, lay, b, h, c, tl)
            && In(h.cx, F) && h.top < |F.labels| && F.labels[h.top] == Some(h.tryStart)
            && Env(m, F, lay, open + {h.tryStart}, h.cx, c, loops + [lc])
  {
    var h := CompForOfHead(b, lay, s.x, s.rhs);
    var lc := LoopCtx(h.end, Some(h.cont), s.name, Some((h.iter, h.guard)));
    var c := CompStmt(h.cx, lay, loops + [lc], s.body1);
    var tl := TailOf(c, h);
    TailThere(F, c, h);

    GrowHead(b, lay, s.x, s.rhs);
    GrowStmt(h.cx, lay, loops + [lc], s.body1);
    ExtIn(h.cx, c, {}, F);
    InOk(c, F); InOk(h.cx, F);
    ExtItems(h.cx, c, {}); ExtTop(h.cx, c); ExtItems(b, h.cx, {h.top, h.cont, h.end});
    InTop(m, F, c);

    GeoHandlers(m, F, lay, open, b, h, c, tl);
    LoopGrows(loops, lc, F, lay, b.top, h.cx.top);
    OpenRegion(F, open, b, h, c, tl);
  }

  lemma GeoHandlers(m: Machine, F: Ctx, lay: Layout, open: set<nat>, b: Ctx, h: Head, c: Ctx, tl: Tail)
    requires Outer(tl.f, F, open) && Earlier(b) && (forall o :: o in open ==> o < |b.items|)
    requires m.code.handlers == SortHandlers(F.handlers) && TailIn(F, c, h, tl)
    requires Ext(h.cx, c, {}) && !c.failed && h.cx.handlers == b.handlers
             && |b.items| <= h.tryStart < |h.cx.items| <= |c.items|
    ensures forall pc :: h.tryStart <= pc < tl.Entry() && Uncovered(h.cx, c, pc) ==>
              FindHandler(m.code.handlers, pc) == Some(Own(h, tl))
    ensures forall pc :: h.tryStart <= pc < |h.cx.items| ==> Uncovered(h.cx, c, pc)
    ensures forall pc :: tl.Entry() <= pc < |tl.f.items| ==> Uncovered(b, tl.f, pc)
    ensures forall pc :: |b.items| <= pc < h.tryStart ==> Uncovered(b, tl.f, pc)
  {
    hide In; hide FindHandler; hide EmitJump; hide EmitRegs;
    forall pc | h.tryStart <= pc < tl.Entry() && Uncovered(h.cx, c, pc)
      ensures FindHandler(m.code.handlers, pc) == Some(Own(h, tl))
    {
      OwnHandler(F, open, b, h, c, tl, pc);
    }
    forall pc: nat, j | |b.handlers| <= j < |tl.f.handlers| && (tl.Entry() <= pc || pc < h.tryStart)
      ensures !tl.f.handlers[j].Covers(pc)
    {
      if j < |c.handlers| { assert tl.f.handlers[j] == c.handlers[j]; }
    }
  }

  // The body may rely on the same environment, with this loop's range open.
  lemma OpenRegion(F: Ctx, open: set<nat>, b: Ctx, h: Head, c: Ctx, tl: Tail)
    requires Outer(tl.f, F, open) && Earlier(b) && (forall o :: o in open ==> o < |b.items|)
    requires tl.f.handlers == c.handlers + [Own(h, tl)] && |c.items| <= |tl.f.items|
    requires h.cx.handlers == b.handlers && |b.items| <= h.tryStart < |h.cx.items|
    ensures Outer(c, F, open + {h.tryStart}) && Earlier(h.cx)
            && (forall o :: o in open + {h.tryStart} ==> o < |h.cx.items|)
  {
    forall j | |c.handlers| <= j < |F.handlers|
      ensures F.handlers[j].start in open + {h.tryStart} || |c.items| <= F.handlers[j].start
    {
      if j < |tl.f.handlers| { assert F.handlers[j] == tl.f.handlers[j]; }
    }
    assert c.handlers <= F.handlers by {
      assert tl.f.handlers <= F.handlers;
      assert c.handlers <= tl.f.handlers;
    }
  }

  // ---- the handler ------------------------------------------------------

  // An error inside the loop arrives at the handler; registers below the delivery
  // register survive.
  lemma Caught(m: Machine, F: Ctx, lay: Layout, b: Ctx, h: Head, c: Ctx, tl: Tail, s: State, v: Val, tr: Trace)
    returns (t: State)
    requires Geo(m, F, lay, b, h, c, tl)
    requires h.tryStart <= s.pc < tl.Entry() && Uncovered(h.cx, c, s.pc) && EffectAt(m, s) == Raise(v, tr)
    ensures Runs(m, s, 1, t) && t.pc == tl.Entry() && t.tr == tr && Get(t.regs, h.exc) == v
    ensures forall r :: 0 <= r < h.exc ==> Get(t.regs, r) == Get(s.regs, r)
  {
    hide EffectAt; hide Uncovered; hide TailIn; hide World;
    t := State(tl.Entry(), Deliver(s.regs, h.exc, v, m.truncates), tr);
    RunsOne(m, s);
  }

  // With the guard armed the error goes on without a second close.
  lemma Armed(m: Machine, F: Ctx, lay: Layout, b: Ctx, h: Head, c: Ctx, tl: Tail, s: State) returns (t: State)
    requires Geo(m, F, lay, b, h, c, tl) && s.pc == tl.Entry() && Get(s.regs, h.guard) == Bool(true)
    ensures Runs(m, s, 1, t) && t.regs == s.regs && EffectAt(m, t) == Raise(Get(s.regs, h.exc), s.tr)
    ensures tl.Entry() <= t.pc < |tl.f.items|
  {
    hide EffectAt; hide Runs; hide Uncovered; hide In; hide EmitJump; hide EncodeRegs; hide WidthAt; hide FindHandler;
    DoBranch(m, F, tl.test, JUMP_IF_TRUE, h.guard, tl.skip, s);
    t := State(|tl.rethrow.items|, s.regs, s.tr);
    AtRegs(m, F, tl.rethrow, THROW, h.exc, 0, 0, 7, t);
  }

  // With the guard unarmed the iterator is closed once; the error that was caught goes on,
  // whatever comes of the close.
  lemma Unarmed(m: Machine, F: Ctx, lay: Layout, b: Ctx, h: Head, c: Ctx, tl: Tail, st: Store, s: State)
    returns (n: nat, t: State)
    requires Geo(m, F, lay, b, h, c, tl) && s.pc == tl.Entry() && Get(s.regs, h.guard) == Bool(false)
    ensures var req := CloseRequest(Get(s.regs, h.iter), 0);
            var closed := s.tr + [Event(req, m.host(req, s.tr))];
            && Runs(m, s, n, t) && t.regs == s.regs && EffectAt(m, t) == Raise(Get(s.regs, h.exc), closed)
            && ThrowClose(m.host, Get(s.regs, h.iter), Get(s.regs, h.exc), st, s.tr)
               == SRes(Thr(Get(s.regs, h.exc)), st, closed)
    ensures tl.Entry() <= t.pc < |tl.f.items|
  {
    hide EffectAt; hide Runs; hide Uncovered; hide In; hide EmitJump; hide EncodeRegs; hide WidthAt; hide FindHandler;
    DoBranch(m, F, tl.test, JUMP_IF_TRUE, h.guard, tl.skip, s);
    var s1 := State(|tl.close.items|, s.regs, s.tr);
    var req := CloseRequest(Get(s.regs, h.iter), 0);
    AtHost(m, F, tl.close, ITERATOR_CLOSE, h.iter, 0, 0, s1, req, None);
    var r := Ask(m.host, req, st, s.tr);
    StepNext(m, s1, s1.regs, r.tr);
    t := State(|tl.rethrow.items|, s.regs, r.tr);
    RunsTrans(m, s, 1, s1, 1, t);
    n := 2;
    AtRegs(m, F, tl.rethrow, THROW, h.exc, 0, 0, 7, t);
  }

  // An error that escapes the body after the guard was armed escapes the loop.
  lemma ArmedEscape(m: Machine, F: Ctx, lay: Layout, b: Ctx, h: Head, c: Ctx, tl: Tail, u: State, w: Val, tr: Trace)
    requires Geo(m, F, lay, b, h, c, tl) && Escaping(m, h.cx, c, u, w, tr) && Get(u.regs, h.guard) == Bool(true)
    ensures Escaping(m, b, tl.f, u, w, tr)
  {
    hide EffectAt; hide Runs; hide Uncovered; hide In; hide FindHandler; hide EmitJump; hide EmitRegs; hide World;
    var k: nat, v :| EscapesTo(m, h.cx, c, u, w, tr, k, v);
    var v1 := Caught(m, F, lay, b, h, c, tl, v, w, tr);
    var v2 := Armed(m, F, lay, b, h, c, tl, v1);
    RunsTrans(m, u, k, v, 1, v1);
    RunsTrans(m, u, k + 1, v1, 1, v2);
    assert EscapesTo(m, b, tl.f, u, w, tr, k + 2, v2);
  }

  // ---- closing on the way out -------------------------------------------

  // The loop's share of an exit stub arms the guard and asks for the close.
  lemma CloseAsked(m: Machine, F: Ctx, c: Ctx, iter: nat, guard: nat, s: State) returns (t: State)
    requires Runs16(m, F) && In(CloseOne(c, (iter, guard)), F) && s.pc == |c.items| && iter < guard < c.top
    ensures Runs(m, s, 2, t) && t.regs == s.regs[c.top := Num(Int(0))][guard := Bool(true)] && t.tr == s.tr
    ensures |c.items| <= t.pc < |CloseOne(c, (iter, guard)).items|
    ensures EffectAt(m, t) == AskHost(m.host, CloseRequest(Get(s.regs, iter), 1), None, t.regs, t.tr)
    ensures t.pc + WidthAt(m, t.pc) == |CloseOne(c, (iter, guard)).items|
    ensures CloseOne(c, (iter, guard)).top == c.top + 1
  {
    hide EncodeRegs;
    var c1 := LoadBool(c, guard, true);
    var c2 := CloseOne(c, (iter, guard));
    RegsShape(c1, ITERATOR_CLOSE, iter, 1, 0, 7);
    PlainIn(c1, c2, F);
    PlainBool(c, guard, true);
    PlainIn(c, c1, F);
    InTop(m, F, c);

    InOk(c1, F);
    DoBool(m, F, c, guard, true, s);
    t := State(|c1.items|, s.regs[c.top := Num(Int(0))][guard := Bool(true)], s.tr);
    AtHost(m, F, c1, ITERATOR_CLOSE, iter, 1, 0, t, CloseRequest(Get(s.regs, iter), 1), None);
  }

  // An exit stub of the body is one of the loop, once the loop's iterator is closed.
  lemma StubShare(m: Machine, F: Ctx, lay: Layout, b: Ctx, h: Head, c: Ctx, tl: Tail, pend: seq<LoopCtx>, lc: LoopCtx,
                  x: Exit, t: State, u: State)
    requires Geo(m, F, lay, b, h, c, tl) && lc.iter == Some((h.iter, h.guard))
    requires AtStub(m, F, h.cx, c, pend + [lc], x, t)
    requires var c2 := CloseOne(x.c, (h.iter, h.guard)); u.pc == |c2.items| && c2.top == x.c.top + 1
    requires u.regs == t.regs[x.c.top := Num(Int(0))][h.guard := Bool(true)]
    ensures AtStub(m, F, b, tl.f, pend, Exit(CloseOne(x.c, (h.iter, h.guard)), x.fin), u)
  {
    hide EffectAt; hide Runs; hide Uncovered; hide In; hide FindHandler; hide CloseOne; hide EmitJump; hide EmitRegs;
    hide EmitCloses; hide Escaping; hide World;
    var c2 := CloseOne(x.c, (h.iter, h.guard));
    var x2 := Exit(c2, x.fin);
    ClosesSnoc(x.c, pend, lc);
    assert StubEnd(x2, pend) == StubEnd(x, pend + [lc]);
    PlainClose(x.c, (h.iter, h.guard));
    var hi := |StubEnd(x, pend + [lc]).items|;
    forall v: State, w, tr | |c2.items| <= v.pc < hi && Same(v.regs, u.regs, b.top, c2.top)
      && EffectAt(m, v) == Raise(w, tr)
      ensures Escaping(m, b, tl.f, v, w, tr)
    {
      assert Same(v.regs, t.regs, h.cx.top, x.c.top);
      assert Get(v.regs, h.guard) == Get(u.regs, h.guard);
      ArmedEscape(m, F, lay, b, h, c, tl, v, w, tr);
    }
  }

  // The loops outside this one that a completion still has to close.
  function Pending(loops: seq<LoopCtx>, c: Comp, leaves: bool): seq<LoopCtx> {
    match c
    case Brk(l) => if leaves then [] else var p := RPosition(loops, l, false); if p.None? then [] else loops[p.value..]
    case Cont(l) => var p := RPosition(loops, l, true); if p.None? then [] else loops[p.value + 1..]
    case _ => loops
  }

  // The stub a completion that leaves the loop stands at.
  lemma StubOf(m: Machine, F: Ctx, lay: Layout, b: Ctx, f: Ctx, loops: seq<LoopCtx>, lc: LoopCtx, body: Stmt,
               res: SRes, fuel: nat, s: State, n: nat, t: State, x: Exit)
    requires Does(m, F, lay, b, f, loops + [lc], BareBreak(body), BareContinue(body), res, fuel, s, n, t, x)
    requires (res.c.Brk? || res.c.Cont? || res.c.Ret?) && !Again(res.c, lc.name) && NameOk(lc.name, body)
             && lc.cont.Some?
    ensures var leaves := Leaves(res.c, lc.name);
            && Runs(m, s, n, t) && Settled(lay, b, res, s, t) && t.tr == res.tr
            && AtStub(m, F, b, f, Pending(loops, res.c, leaves) + [lc], x, t)
            && (res.c.Ret? ==> x.fin.FRet? && Get(t.regs, x.fin.r) == res.c.v)
            && (leaves ==> x.fin == FJump(lc.brk))
            && (res.c.Brk? && !leaves ==>
                  res.c.lbl.Some? && var p := RPosition(loops, res.c.lbl, false);
                  p.Some? && x.fin == FJump(loops[p.value].brk))
            && (res.c.Cont? ==>
                  && res.c.lbl.Some?
                  && var p := RPosition(loops, res.c.lbl, true);
                  && p.Some? && loops[p.value].cont.Some? && x.fin == FJump(loops[p.value].cont.value))
  {
    hide EffectAt; hide Runs; hide AtStub; hide Settled; hide Uncovered; hide RPosition; hide BareBreak;
    hide BareContinue;
    var all := loops + [lc];
    if res.c.Brk? {
      RPositionSnoc(loops, lc, res.c.lbl, false);
      var p := RPosition(all, res.c.lbl, false).value;
      assert all[p..] == (if p == |loops| then [] else loops[p..]) + [lc];
    } else if res.c.Cont? {
      RPositionSnoc(loops, lc, res.c.lbl, true);
      var p := RPosition(all, res.c.lbl, true).value;
      assert all[p + 1..] == (if p == |loops| then [] else loops[p + 1..] + [lc]);
    }
  }

  // A throw of v inside the loop, with the guard unarmed: close, then rethrow.
  lemma ThrownOut(m: Machine, F: Ctx, lay: Layout, b: Ctx, h: Head, c: Ctx, tl: Tail, loops: seq<LoopCtx>,
                  it: Val, v: Val, st: Store, tr: Trace, fuel: nat, s0: State, n0: nat, s: State)
                    returns (n: nat, t: State)
    requires Geo(m, F, lay, b, h, c, tl) && Runs(m, s0, n0, s) && Keep(lay, s0.regs, s.regs, b.top)
             && Rel(lay, st, s.regs)
    requires h.tryStart <= s.pc < tl.Entry() && Uncovered(h.cx, c, s.pc) && EffectAt(m, s) == Raise(v, tr)
    requires Get(s.regs, h.iter) == it && Get(s.regs, h.guard) == Bool(false)
    ensures Does(m, F, lay, b, tl.f, loops, false, false, ThrowClose(m.host, it, v, st, tr), fuel, s0, n, t, NoExit(b))
  {
    hide EffectAt; hide Runs; hide Uncovered; hide TailIn; hide World; hide FindHandler;
    GeoRuns(m, F, lay, b, h, c, tl);
    var s1 := Caught(m, F, lay, b, h, c, tl, s, v, tr);
    RunsTrans(m, s0, n0, s, 1, s1);
    n, t := Unarmed(m, F, lay, b, h, c, tl, st, s1);
    RunsTrans(m, s0, n0 + 1, s1, n, t);
    n := n0 + 1 + n;
  }

  // A completion other than a throw leaves the loop: the iterator is closed once,
  // and an error of that close replaces the completion without closing again.
  lemma LeftOk(m: Machine, F: Ctx, lay: Layout, b: Ctx, h: Head, c: Ctx, tl: Tail, loops: seq<LoopCtx>, lc: LoopCtx,
               body: Stmt,
               it: Val, res: SRes, fuel: nat, s0: State, n0: nat, t0: State, x0: Exit)
                 returns (n: nat, t: State, x: Exit)
    requires Geo(m, F, lay, b, h, c, tl) && lc.iter == Some((h.iter, h.guard)) && lc.brk == h.end && lc.cont.Some?
             && NameOk(lc.name, body)
    requires Does(m, F, lay, h.cx, c, loops + [lc], BareBreak(body), BareContinue(body), res, fuel, s0, n0, t0, x0)
    requires (res.c.Brk? || res.c.Cont? || res.c.Ret?) && !Again(res.c, lc.name) && Get(s0.regs, h.iter) == it
    ensures Does(m, F, lay, b, tl.f, loops, false, false,
                 ExitClose(m.host, it, if Leaves(res.c, lc.name) then Normal else res.c, res.st, res.tr), fuel, s0, n,
                   t, x)
  {
    hide EffectAt; hide Runs; hide Uncovered; hide TailIn; hide World; hide FindHandler; hide AtStub; hide RPosition;
    hide BareBreak; hide BareContinue;
    hide CloseOne; hide WidthAt; hide Rel; hide Keep; hide Does; hide Escaping; hide In;
    var leaves := Leaves(res.c, lc.name);
    var pend := Pending(loops, res.c, leaves);
    StubOf(m, F, lay, h.cx, c, loops, lc, body, res, fuel, s0, n0, t0, x0);
    StubBounds(m, F, h.cx, c, pend, lc, x0, t0);
    EscapeUse(m, F, h.cx, c, pend + [lc], x0, t0);
    GeoRuns(m, F, lay, b, h, c, tl);
    SettledParts(lay, h.cx, res, s0, t0);
    KeepGet(lay, s0.regs, t0.regs, h.cx.top, h.iter);
    var u := CloseAsked(m, F, x0.c, h.iter, h.guard, t0);
    RunsTrans(m, s0, n0, t0, 2, u);
    WriteTemp(lay, res.st, t0.regs, x0.c.top, Num(Int(0)), h.cx.top);
    WriteTemp(lay, res.st, t0.regs[x0.c.top := Num(Int(0))], h.guard, Bool(true), b.top);
    KeepTrans(lay, s0.regs, t0.regs, t0.regs[x0.c.top := Num(Int(0))], h.cx.top, h.cx.top);
    KeepLess(lay, s0.regs, t0.regs[x0.c.top := Num(Int(0))], b.top, h.cx.top);
    KeepTrans(lay, s0.regs, t0.regs[x0.c.top := Num(Int(0))], u.regs, b.top, b.top);
    var r := Ask(m.host, CloseRequest(it, 1), res.st, res.tr);
    if r.Thrown? {
      assert Same(u.regs, t0.regs, h.cx.top, x0.c.top);
      assert Escaping(m, h.cx, c, u, r.v, r.tr);
      ArmedEscape(m, F, lay, b, h, c, tl, u, r.v, r.tr);
      n, t := EscapedDone(m, F, lay, b, tl.f, loops, r.v, r.st, r.tr, fuel, s0, n0 + 2, u);
      x := NoExit(b);
    } else {
      StepNext(m, u, u.regs, r.tr);
      var c2 := CloseOne(x0.c, (h.iter, h.guard));
      t := State(|c2.items|, u.regs, r.tr);
      RunsTrans(m, s0, n0 + 2, u, 1, t);
      StubShare(m, F, lay, b, h, c, tl, pend, lc, x0, t0, t);
      x := Exit(c2, x0.fin);
      n := n0 + 3;
      if leaves {
        ArriveFrom(m, F, b, tl.f, x, t);
        n, t := LeaveOk(m, F, lay, b, h, c, tl, loops, r.st, fuel, s0, n, t);
        x := NoExit(b);
      } else {
        StubDone(m, F, lay, b, tl.f, loops, SRes(res.c, r.st, r.tr), fuel, s0, n, t, x);
      }
    }
  }

  lemma KeepLess(lay: Layout, r0: Regs, r1: Regs, low: nat, top: nat)
    requires Keep(lay, r0, r1, top) && low <= top
    ensures Keep(lay, r0, r1, low)
  {
  }

  lemma GeoRuns(m: Machine, F: Ctx, lay: Layout, b: Ctx, h: Head, c: Ctx, tl: Tail)
    requires Geo(m, F, lay, b, h, c, tl)
    ensures Runs16(m, F) && WfLayout(lay) && h.end < |F.labels| && |c.items| <= tl.Entry() <= |tl.f.items|
  {
    hide Uncovered; hide FindHandler; hide In; hide EmitJump; hide EmitRegs;
  }

  lemma StubBounds(m: Machine, F: Ctx, b: Ctx, f: Ctx, pend: seq<LoopCtx>, lc: LoopCtx, x: Exit, t: State)
    requires AtStub(m, F, b, f, pend + [lc], x, t) && lc.iter.Some?
    ensures t.pc == |x.c.items| && b.top <= x.c.top && In(CloseOne(x.c, lc.iter.value), F)
    ensures x.fin.FRet? ==> b.top <= x.fin.r < x.c.top
    ensures |CloseOne(x.c, lc.iter.value).items| <= |StubEnd(x, pend + [lc]).items|
  {
    hide Escape; hide In; hide CloseOne; hide EmitCloses;
    assert In(CloseOne(x.c, lc.iter.value), F)
      && |CloseOne(x.c, lc.iter.value).items| <= |StubEnd(x, pend + [lc]).items| by {
      var c2 := CloseOne(x.c, lc.iter.value);
      var c3 := EmitCloses(c2, pend);
      ClosesSnoc(x.c, pend, lc);
      PlainCloses(c2, pend);
      if x.fin.FRet? { RegsShape(c3, RETURN, x.fin.r, 0, 0, 7); } else { JumpShape(c3, JUMP, 0, x.fin.l); }
      PlainIn(c3, EmitFin(c3, x.fin), F);
      PlainIn(c2, c3, F);
    }
  }

  lemma EscapeUse(m: Machine, F: Ctx, b: Ctx, f: Ctx, pend: seq<LoopCtx>, x: Exit, t: State)
    requires AtStub(m, F, b, f, pend, x, t)
    ensures forall u: State, w, tr ::
              |x.c.items| <= u.pc < |StubEnd(x, pend).items| && Same(u.regs, t.regs, b.top, x.c.top)
              && EffectAt(m, u) == Raise(w, tr)
              ==> Escaping(m, b, f, u, w, tr)
  {
    hide EffectAt; hide In; hide StubEnd; hide Escaping; hide Same;
  }

  // An escaping error is a throw of the statement.
  lemma EscapedDone(m: Machine, F: Ctx, lay: Layout, b: Ctx, f: Ctx, loops: seq<LoopCtx>, w: Val, st: Store, tr: Trace,
                    fuel: nat,
                    s0: State, n0: nat, u: State) returns (n: nat, t: State)
    requires Runs(m, s0, n0, u) && Keep(lay, s0.regs, u.regs, b.top) && Rel(lay, st, u.regs) && WfLayout(lay)
             && lay.localsEnd < b.top
    requires Escaping(m, b, f, u, w, tr)
    ensures Does(m, F, lay, b, f, loops, false, false, SRes(Thr(w), st, tr), fuel, s0, n, t, NoExit(b))
  {
    hide EffectAt; hide Runs; hide Uncovered;
    var k: nat, v :| EscapesTo(m, b, f, u, w, tr, k, v);
    RunsTrans(m, s0, n0, u, k, v);
    n, t := n0 + k, v;
  }

  // From the end label the loop is done.
  lemma LeaveOk(m: Machine, F: Ctx, lay: Layout, b: Ctx, h: Head, c: Ctx, tl: Tail, loops: seq<LoopCtx>, st: Store,
                fuel: nat,
                s0: State, n0: nat, s: State) returns (n: nat, t: State)
    requires Geo(m, F, lay, b, h, c, tl) && Keep(lay, s0.regs, s.regs, b.top) && Rel(lay, st, s.regs)
             && h.end < |F.labels|
    requires Runs(m, s0, n0, s) && Runs(m, s, 1, State(F.labels[h.end].value, s.regs, s.tr))
    ensures Does(m, F, lay, b, tl.f, loops, false, false, SRes(Normal, st, s.tr), fuel, s0, n, t, NoExit(b))
  {
    hide EffectAt; hide Runs; hide Uncovered; hide In; hide FindHandler; hide EmitJump; hide EmitRegs; hide Rel;
    hide Keep; hide Does;
    var s1 := State(F.labels[h.end].value, s.regs, s.tr);
    RunsTrans(m, s0, n0, s, 1, s1);
    DoGoto(m, F, tl.out, tl.over, s1);
    t := State(|tl.f.items|, s.regs, s.tr);
    RunsTrans(m, s0, n0 + 1, s1, 1, t);
    n := n0 + 2;
    NormalDone(m, F, lay, b, tl.f, loops, false, false, st, fuel, s0, n, t);
  }

  // Standing at a stub for the loops outside.
  lemma StubDone(m: Machine, F: Ctx, lay: Layout, b: Ctx, f: Ctx, loops: seq<LoopCtx>, res: SRes, fuel: nat, s0: State,
                 n: nat, t: State, x: Exit)
    requires Runs(m, s0, n, t) && Keep(lay, s0.regs, t.regs, b.top) && Rel(lay, res.st, t.regs) && t.tr == res.tr
    requires AtStub(m, F, b, f, Pending(loops, res.c, false), x, t)
    requires res.c.Ret? || ((res.c.Brk? || res.c.Cont?) && res.c.lbl.Some?)
    requires res.c.Ret? ==> x.fin.FRet? && Get(t.regs, x.fin.r) == res.c.v
    requires res.c.Brk? ==> var p := RPosition(loops, res.c.lbl, false); p.Some? && x.fin == FJump(loops[p.value].brk)
    requires res.c.Cont? ==>
               var p := RPosition(loops, res.c.lbl, true);
               p.Some? && loops[p.value].cont.Some? && x.fin == FJump(loops[p.value].cont.value)
    ensures Does(m, F, lay, b, f, loops, false, false, res, fuel, s0, n, t, x)
  {
    hide EffectAt; hide Runs; hide AtStub; hide Uncovered; hide Rel; hide Keep; hide RPosition;
  }

  // From the test of `done` the loop is done, and nothing was closed.
  lemma DoneOk(m: Machine, F: Ctx, lay: Layout, b: Ctx, h: Head, c: Ctx, tl: Tail, loops: seq<LoopCtx>, st: Store,
               fuel: nat,
               s0: State, n0: nat, s: State) returns (n: nat, t: State)
    requires Geo(m, F, lay, b, h, c, tl) && Keep(lay, s0.regs, s.regs, b.top) && Rel(lay, st, s.regs)
    requires Runs(m, s0, n0, s) && h.end < |F.labels| && F.labels[h.end] == Some(s.pc)
    ensures Does(m, F, lay, b, tl.f, loops, false, false, SRes(Normal, st, s.tr), fuel, s0, n, t, NoExit(b))
  {
    hide EffectAt; hide Runs; hide Uncovered; hide In; hide FindHandler; hide EmitJump; hide EmitRegs; hide Rel;
    hide Keep; hide Does;
    DoGoto(m, F, tl.out, tl.over, s);
    t := State(|tl.f.items|, s.regs, s.tr);
    RunsTrans(m, s0, n0, s, 1, t);
    n := n0 + 1;
    NormalDone(m, F, lay, b, tl.f, loops, false, false, st, fuel, s0, n, t);
  }

  // The body is done with this round: back to the head, iterator and guard intact.
  lemma BackOk(m: Machine, F: Ctx, lay: Layout, b: Ctx, h: Head, c: Ctx, tl: Tail, loops: seq<LoopCtx>, lc: LoopCtx,
               body: Stmt,
               res: SRes, fuel: nat, s0: State, n0: nat, t0: State, x0: Exit) returns (n: nat, t: State)
    requires Geo(m, F, lay, b, h, c, tl) && lc.cont == Some(h.cont) && NameOk(lc.name, body)
    requires h.top < |F.labels| && F.labels[h.top] == Some(h.tryStart)
    requires Does(m, F, lay, h.cx, c, loops + [lc], BareBreak(body), BareContinue(body), res, fuel, s0, n0, t0, x0)
             && Again(res.c, lc.name)
    ensures Runs(m, s0, n, t) && t.pc == h.tryStart && t.tr == res.tr && Rel(lay, res.st, t.regs)
            && Keep(lay, s0.regs, t.regs, b.top)
    ensures Get(t.regs, h.iter) == Get(s0.regs, h.iter) && Get(t.regs, h.guard) == Get(s0.regs, h.guard)
  {
    hide EffectAt; hide Runs; hide Uncovered; hide In; hide FindHandler; hide EmitJump; hide EmitRegs; hide Rel;
    hide Keep; hide AtStub;
    hide BareBreak; hide BareContinue; hide RPosition;
    if res.c.Cont? {
      ContinueHere(m, F, lay, h.cx, c, loops, lc, BareBreak(body), BareContinue(body), res, fuel, s0, n0, t0, x0);
      n, t := n0 + 1, State(|c.items|, t0.regs, res.tr);
    } else {
      n, t := n0, t0;
    }
    KeepGet(lay, s0.regs, t.regs, h.cx.top, h.iter);
    KeepGet(lay, s0.regs, t.regs, h.cx.top, h.guard);
    KeepLess(lay, s0.regs, t.regs, b.top, h.cx.top);
    DoGoto(m, F, tl.back, h.top, t);
    var t1 := State(h.tryStart, t.regs, t.tr);
    RunsTrans(m, s0, n, t, 1, t1);
    n, t := n + 1, t1;
  }

  lemma FuelOut(m: Machine, F: Ctx, lay: Layout, b: Ctx, f: Ctx, b1: Ctx, f1: Ctx, loops: seq<LoopCtx>,
                loops1: seq<LoopCtx>, bareB: bool, bareC: bool,
                res: SRes, fuel: nat, s: State, n: nat, t: State, x: Exit)
    requires Does(m, F, lay, b, f, loops, bareB, bareC, res, fuel, s, n, t, x) && res.c.OutOfFuel? && fuel > 0
    ensures Does(m, F, lay, b1, f1, loops1, false, false, res, fuel - 1, s, n, t, x)
  {
    hide EffectAt; hide Runs; hide AtStub; hide Settled; hide Uncovered;
  }

  lemma DoesThrows(m: Machine, F: Ctx, lay: Layout, b: Ctx, f: Ctx, loops: seq<LoopCtx>, bareB: bool, bareC: bool,
                   res: SRes, fuel: nat, s: State, n: nat, t: State, x: Exit)
    requires Does(m, F, lay, b, f, loops, bareB, bareC, res, fuel, s, n, t, x) && res.c.Thr?
    ensures Runs(m, s, n, t) && Keep(lay, s.regs, t.regs, b.top) && Rel(lay, res.st, t.regs)
    ensures |b.items| <= t.pc < |f.items| && Uncovered(b, f, t.pc) && EffectAt(m, t) == Raise(res.c.v, res.tr)
  {
    hide EffectAt; hide Runs; hide AtStub; hide Uncovered;
  }

  lemma DoesLess(m: Machine, F: Ctx, lay: Layout, b: Ctx, f: Ctx, loops: seq<LoopCtx>, bareB: bool, bareC: bool,
                 res: SRes, fuel: nat, fuel': nat, s: State, n: nat, t: State, x: Exit)
    requires Does(m, F, lay, b, f, loops, bareB, bareC, res, fuel, s, n, t, x) && fuel' <= fuel
    ensures Does(m, F, lay, b, f, loops, bareB, bareC, res, fuel', s, n, t, x)
  {
    hide EffectAt; hide Runs; hide AtStub; hide Settled; hide Uncovered;
  }
}
