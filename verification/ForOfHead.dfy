/**
 The entry of a `for-of` loop (evaluate, get the iterator, disarm the guard) and the
 head of each round (advance, test `done`, read `value`, assign the variable).
 */
module ForOfHead {
  import opened Words
  import opened Machine
  import opened Assembly
  import opened Source
  import opened Lowering
  import opened Growth
  import opened Steps
  import opened ExprCorrect
  import opened StmtFrame

  // obj[name] into a fresh register.
  lemma GetStrOk(m: Machine, F: Ctx, lay: Layout, b: Ctx, obj: nat, name: string, st: Store, s: State)
    returns (n: nat, t: State)
    requires World(m, F, lay) && In(CompGetStr(b, obj, name).0, F) && At(b, lay, st, s) && obj < b.top
    ensures var (f, r) := CompGetStr(b, obj, name);
            Computes(m, lay, b, f, r, Ask(m.host, Request(GET_PROPERTY, [], [Get(s.regs, obj), Str(name)]), st, s.tr),
                     s, n, t)
  {
    hide Runs; hide EffectAt; hide WidthAt; hide EncodeRegs; hide NewTemps; hide LoadConst; hide In; hide Rel;
    var (b1, k) := NewTemp(b);
    var b2 := LoadConst(b1, k, Str(name));
    var (b3, d) := NewTemp(b2);
    var f := EmitReg3(b3, GET_PROPERTY, d, obj, k);
    PlainTemps(b, 1); PlainConst(b1, k, Str(name)); PlainTemps(b2, 1); RegsShape(b3, GET_PROPERTY, d, obj, k, 7);
    PlainIn(b3, f, F); PlainIn(b2, b3, F); PlainIn(b1, b2, F); PlainIn(b, b1, F);
    InOk(b3, F); InOk(b2, F); InOk(b1, F); InTop(m, F, b3); InTop(m, F, b1);
    DoConst(m, F, b1, k, Str(name), s);
    var s1 := State(|b2.items|, s.regs[k := Str(name)], s.tr);
    WriteTemp(lay, st, s.regs, k, Str(name), b.top);
    var req := Request(GET_PROPERTY, [], [Get(s.regs, obj), Str(name)]);
    AtHost(m, F, b3, GET_PROPERTY, d, obj, k, s1, req, Some(d));
    n, t := Asked(m, lay, b3.(top := d), f, d, req, st, s1);
    Then(m, lay, b, b3.(top := d), f, d, Ask(m.host, req, st, s.tr), s, 1, s1, n, t);
    n := 1 + n;
  }

  // ---- entry ------------------------------------------------------------

  // Evaluate the iterable and ask for its iterator.
  function Iterator(h: Host, rhs: Expr, st: Store, tr: Trace): ERes {
    var r := Eval(h, rhs, st, tr);
    if r.Thrown? then r else Ask(h, Request(GET_ITERATOR, [], [r.v]), r.st, r.tr)
  }

  // The stages of the entry.
  lemma SetupIn(m: Machine, F: Ctx, lay: Layout, b: Ctx, rhs: Expr)
    requires Runs16(m, F) && In(CompForOfSetup(b, lay, rhs).0.cx, F)
    ensures var (b1, r) := CompExpr(b, lay, rhs);
            var (b2, iter) := NewTemp(b1);
            var b3 := EmitReg3(b2, GET_ITERATOR, iter, r, 0);
            var (b4, result) := NewTemp(b3);
            var (b8, guard) := NewTemp(NewLabel(NewLabel(NewLabel(b4).0).0).0);
            var b9 := LoadBool(b8, guard, false);
            var (h, _) := CompForOfSetup(b, lay, rhs);
            && h.iter == iter && h.guard == guard && h.tryStart == |b9.items| == |h.cx.items|
            && In(b1, F) && In(b3, F) && In(b9, F)
            && b.top <= r < iter == b1.top && b1.top < b2.top && iter < guard < b8.top && b8.top <= MAX_REGS
            && |b1.items| == |b2.items| && |b3.items| == |b8.items| && |b.items| <= |b1.items|
            && |b3.items| <= |b9.items| && |b2.items| <= |b3.items|
  {
    hide Ext; hide CompExpr; hide EmitRegs; hide LoadBool; hide NewTemps; hide In;
    var (b1, r) := CompExpr(b, lay, rhs);
    var (b2, iter) := NewTemp(b1);
    var b3 := EmitReg3(b2, GET_ITERATOR, iter, r, 0);
    var (b4, result) := NewTemp(b3);
    var b5 := NewLabel(b4).0;
    var b6 := NewLabel(b5).0;
    var b7 := NewLabel(b6).0;
    var (b8, guard) := NewTemp(b7);
    var b9 := LoadBool(b8, guard, false);
    GrowExpr(b, lay, rhs);
    PlainTemps(b1, 1); RegsShape(b2, GET_ITERATOR, iter, r, 0, 7); PlainTemps(b3, 1); PlainTemps(b7, 1);
    PlainBool(b8, guard, false); PlainTemps(b9, 1);
    PlainIn(b9, NewTemp(b9).0, F); PlainIn(b8, b9, F); PlainIn(b7, b8, F);
    LabelIn(b6, F); LabelIn(b5, F); LabelIn(b4, F);
    PlainIn(b3, b4, F); PlainIn(b2, b3, F); PlainIn(b1, b2, F);
    InOk(b1, F); InOk(b2, F); InOk(b4, F); InOk(b8, F); InOk(b9, F);
    InOk(NewTemp(b9).0, F);
    InTop(m, F, b8);
    ExtItems(b, b1, {});
  }

  lemma SetupOk(m: Machine, F: Ctx, lay: Layout, b: Ctx, rhs: Expr, st: Store, s: State) returns (n: nat, t: State)
    requires World(m, F, lay) && WfExpr(lay, rhs) && In(CompForOfSetup(b, lay, rhs).0.cx, F) && At(b, lay, st, s)
    ensures var (h, _) := CompForOfSetup(b, lay, rhs);
            var ev := Iterator(m.host, rhs, st, s.tr);
            && Computes(m, lay, b, h.cx, h.iter, ev, s, n, t)
            && (ev.Value? ==> Get(t.regs, h.guard) == Bool(false))
  {
    hide Runs; hide EffectAt; hide WidthAt; hide Ext; hide CompExpr; hide EncodeRegs; hide LoadBool; hide NewTemps;
    hide In; hide Rel; hide Eval; hide Keep;
    hide CompForOfSetup;
    var (h, _) := CompForOfSetup(b, lay, rhs);
    var (b1, r) := CompExpr(b, lay, rhs);
    var (b2, iter) := NewTemp(b1);
    var b3 := EmitReg3(b2, GET_ITERATOR, iter, r, 0);
    var (b4, result) := NewTemp(b3);
    var (b8, guard) := NewTemp(NewLabel(NewLabel(NewLabel(b4).0).0).0);
    var b9 := LoadBool(b8, guard, false);
    SetupIn(m, F, lay, b, rhs);
    var ev := Eval(m.host, rhs, st, s.tr);
    n, t := ExprOk(m, F, lay, b, rhs, st, s);
    if ev.Thrown? {
      ThrownIn(m, lay, b, b1, h.cx, r, h.iter, ev, s, n, t);
      return;
    }
    var req := Request(GET_ITERATOR, [], [ev.v]);
    AtHost(m, F, b2, GET_ITERATOR, iter, r, 0, t, req, Some(iter));
    var n2, t2 := Asked(m, lay, b2.(top := iter), b3, iter, req, ev.st, t);
    var it := Ask(m.host, req, ev.st, ev.tr);
    Then(m, lay, b, b2.(top := iter), b3, iter, it, s, n, t, n2, t2);
    n, t := n + n2, t2;
    if it.Thrown? {
      ThrownIn(m, lay, b, b3, h.cx, iter, iter, it, s, n, t);
      return;
    }
    DoBool(m, F, b8, guard, false, t);
    var regs1 := t.regs[b8.top := Num(Int(0))];
    var t3 := State(|b9.items|, regs1[guard := Bool(false)], t.tr);
    WriteTemp(lay, it.st, t.regs, b8.top, Num(Int(0)), b.top);
    WriteTemp(lay, it.st, regs1, guard, Bool(false), b.top);
    KeepTrans(lay, s.regs, t.regs, regs1, b.top, b.top);
    KeepTrans(lay, s.regs, regs1, t3.regs, b.top, b.top);
    RunsTrans(m, s, n, t, 2, t3);
    n, t := n + 2, t3;
  }

  // ---- one round --------------------------------------------------------

  // What the head of a round finds.
  datatype Fetched = Raised(v: Val, tr: Trace) | Exhausted(tr: Trace) | Got(v: Val, tr: Trace)

  function Fetch(h: Host, it: Val, tr: Trace): Fetched {
    var n := Ask(h, Request(ITERATOR_NEXT, [], [it]), map[], tr);
    if n.Thrown? then Raised(n.v, n.tr) else
    var d := Ask(h, Request(GET_PROPERTY, [], [n.v, DONE]), map[], n.tr);
    if d.Thrown? then Raised(d.v, d.tr)
    else if Truthy(d.v) then Exhausted(d.tr)
    else
      var v := Ask(h, Request(GET_PROPERTY, [], [n.v, VALUE]), map[], d.tr);
      if v.Thrown? then Raised(v.v, v.tr) else Got(v.v, v.tr)
  }

  // One round of the loop, in the evaluator.
  lemma UnfoldForOf(h: Host, s: Stmt, it: Val, st: Store, tr: Trace, fuel: nat)
    requires s.ForOf?
    ensures ExecForOf(h, s, it, st, tr, fuel) ==
            if fuel == 0 then SRes(OutOfFuel, st, tr) else
            match Fetch(h, it, tr)
            case Raised(v, tr1) => ThrowClose(h, it, v, st, tr1)
            case Exhausted(tr1) => SRes(Normal, st, tr1)
            case Got(v, tr1) =>
              var b := Execute(h, s.body1, st[s.x := v], tr1, fuel);
              if Again(b.c, s.name) then ExecForOf(h, s, it, b.st, b.tr, fuel - 1)
              else if b.c.OutOfFuel? then b
              else if b.c.Thr? then ThrowClose(h, it, b.c.v, b.st, b.tr)
              else ExitClose(h, it, if Leaves(b.c, s.name) then Normal else b.c, b.st, b.tr)
  {
    hide Execute;
  }

  lemma UnfoldEntry(h: Host, s: Stmt, st: Store, tr: Trace, fuel: nat)
    requires s.ForOf?
    ensures Execute(h, s, st, tr, fuel) ==
            var it := Iterator(h, s.rhs, st, tr);
            if it.Thrown? then SRes(Thr(it.v), it.st, it.tr) else ExecForOf(h, s, it.v, it.st, it.tr, fuel)
  {
    hide ExecForOf;
  }

  // The stages of a round's head.
  lemma HeadIn(m: Machine, F: Ctx, lay: Layout, b: Ctx, x: Sym, rhs: Expr)
    requires Runs16(m, F) && In(CompForOfHead(b, lay, x, rhs).cx, F)
    ensures var (h, result) := CompForOfSetup(b, lay, rhs);
            var b1 := Bind(h.cx, h.top);
            var b2 := EmitWords(b1, [Instr(LOOP_HEADER, 0, 0, 0)]);
            var b3 := EmitReg3(b2, ITERATOR_NEXT, result, h.iter, 0);
            var (b4, done) := CompGetStr(b3, result, "done");
            var b5 := EmitJump(b4, JUMP_IF_TRUE, done, h.end);
            var (b6, value) := CompGetStr(b5, result, "value");
            var b7 := MoveReg(b6, RegOf(lay, x), value);
            var g := CompForOfHead(b, lay, x, rhs);
            && g == h.(cx := if RegOf(lay, x) != value then b7 else b6)
            && In(h.cx, F) && In(b2, F) && In(b3, F) && In(b4, F) && In(b5, F) && In(b6, F)
            && h.tryStart == |h.cx.items| == |b1.items| && |b2.items| == |b1.items| + 1
            && b.top <= h.iter < result < h.guard < h.exc < h.cx.top && b1.top == h.cx.top && b2.top == b1.top
            && b3.top == b2.top && b5.top == b4.top
            && b3.top <= done < b4.top && b5.top <= value < b6.top && b4.top <= b5.top && g.cx.top == b6.top
            && b6.top <= MAX_REGS
            && |b2.items| <= |b3.items| && |b3.items| <= |b4.items| && |b4.items| <= |b5.items|
            && |b5.items| <= |b6.items| && |b6.items| <= |g.cx.items|
  {
    hide Ext; hide EmitRegs; hide EmitJump; hide CompGetStr; hide CompForOfSetup; hide In; hide Bind; hide MoveReg;
    var (h, result) := CompForOfSetup(b, lay, rhs);
    var b1 := Bind(h.cx, h.top);
    var b2 := EmitWords(b1, [Instr(LOOP_HEADER, 0, 0, 0)]);
    var b3 := EmitReg3(b2, ITERATOR_NEXT, result, h.iter, 0);
    var (b4, done) := CompGetStr(b3, result, "done");
    var b5 := EmitJump(b4, JUMP_IF_TRUE, done, h.end);
    var (b6, value) := CompGetStr(b5, result, "value");
    var b7 := MoveReg(b6, RegOf(lay, x), value);
    GrowSetup(b, lay, rhs);
    PlainWords(b1, [Instr(LOOP_HEADER, 0, 0, 0)]);
    RegsShape(b2, ITERATOR_NEXT, result, h.iter, 0, 7);
    PlainGetStr(b3, result, "done"); JumpShape(b4, JUMP_IF_TRUE, done, h.end); PlainGetStr(b5, result, "value");
    MoveShape(b6, RegOf(lay, x), value);
    if RegOf(lay, x) != value { PlainIn(b6, b7, F); }
    PlainIn(b5, b6, F); PlainIn(b4, b5, F); PlainIn(b3, b4, F); PlainIn(b2, b3, F); PlainIn(b1, b2, F);
    BindIn(h.cx, h.top, F);
    InOk(h.cx, F); InOk(b4, F); InOk(b6, F); InTop(m, F, b6);
  }

  // What every round keeps: the iterator, the disarmed guard and everything older.
  ghost predicate RoundKeeps(lay: Layout, b: Ctx, h: Head, r0: Regs, r1: Regs) {
    Keep(lay, r0, r1, b.top) && Get(r1, h.iter) == Get(r0, h.iter) && Get(r1, h.guard) == Get(r0, h.guard)
  }

  lemma RoundKeepsTrans(lay: Layout, b: Ctx, h: Head, r0: Regs, r1: Regs, r2: Regs, top: nat)
    requires RoundKeeps(lay, b, h, r0, r1) && Keep(lay, r1, r2, top)
    requires lay.localsEnd < b.top <= h.iter < h.guard < top
    ensures RoundKeeps(lay, b, h, r0, r2)
  {
  }

  // The first half: advance and test `done`.
  lemma AdvanceOk(m: Machine, F: Ctx, lay: Layout, b: Ctx, x: Sym, rhs: Expr, st: Store, s: State)
    returns (n: nat, t: State)
    requires World(m, F, lay) && In(CompForOfHead(b, lay, x, rhs).cx, F) && lay.localsEnd < b.top
             && Rel(lay, st, s.regs)
    requires s.pc == CompForOfHead(b, lay, x, rhs).tryStart && CompForOfHead(b, lay, x, rhs).end < |F.labels|
    ensures var (h, result) := CompForOfSetup(b, lay, rhs);
            var g := CompForOfHead(b, lay, x, rhs);
            var nx := Ask(m.host, Request(ITERATOR_NEXT, [], [Get(s.regs, h.iter)]), map[], s.tr);
            && Runs(m, s, n, t) && Rel(lay, st, t.regs) && RoundKeeps(lay, b, h, s.regs, t.regs)
            && (nx.Thrown? ==> h.tryStart <= t.pc < |g.cx.items| && EffectAt(m, t) == Raise(nx.v, nx.tr))
            && (nx.Value? ==>
                  var d := Ask(m.host, Request(GET_PROPERTY, [], [nx.v, DONE]), map[], nx.tr);
                  && (d.Thrown? ==> h.tryStart <= t.pc < |g.cx.items| && EffectAt(m, t) == Raise(d.v, d.tr))
                  && (d.Value? ==>
                        && t.tr == d.tr && Get(t.regs, result) == nx.v
                        && t.pc == if Truthy(d.v) then F.labels[h.end].value else |HeadMid(b, lay, rhs).items|))
  {
    hide Runs; hide EffectAt; hide WidthAt; hide EncodeRegs; hide EmitJump; hide CompGetStr; hide CompForOfSetup;
    hide In; hide Bind; hide MoveReg;
    hide Rel; hide Keep; hide CompForOfHead;
    var (h, result) := CompForOfSetup(b, lay, rhs);
    var b1 := Bind(h.cx, h.top);
    var b2 := EmitWords(b1, [Instr(LOOP_HEADER, 0, 0, 0)]);
    var b3 := EmitReg3(b2, ITERATOR_NEXT, result, h.iter, 0);
    var (b4, done) := CompGetStr(b3, result, "done");
    HeadIn(m, F, lay, b, x, rhs);
    DoHeader(m, F, b1, s);
    var s1 := State(|b2.items|, s.regs, s.tr);
    var req := Request(ITERATOR_NEXT, [], [Get(s.regs, h.iter)]);
    AtHost(m, F, b2, ITERATOR_NEXT, result, h.iter, 0, s1, req, Some(result));
    var nx := Ask(m.host, req, map[], s.tr);
    KeepRefl(lay, s.regs, b.top);
    if nx.Thrown? {
      n, t := 1, s1;
      return;
    }
    WriteTemp(lay, st, s.regs, result, nx.v, b.top);
    var s2 := State(|b3.items|, s.regs[result := nx.v], nx.tr);
    StepNext(m, s1, s2.regs, nx.tr);
    RunsTrans(m, s, 1, s1, 1, s2);
    n, t := GetStrOk(m, F, lay, b3, result, "done", st, s2);
    RunsTrans(m, s, 2, s2, n, t);
    n := 2 + n;
    RoundKeepsTrans(lay, b, h, s.regs, s2.regs, t.regs, b3.top);
    KeepGet(lay, s2.regs, t.regs, b3.top, result);
    var d := Ask(m.host, Request(GET_PROPERTY, [], [nx.v, DONE]), map[], nx.tr);
    if d.Value? {
      DoBranch(m, F, b4, JUMP_IF_TRUE, done, h.end, t);
      BoundAt(m, F, h.end);
      var t1 :=
        State(if Truthy(d.v) then F.labels[h.end].value
              else |EmitJump(b4, JUMP_IF_TRUE, done, h.end).items|, t.regs, t.tr);
      RunsTrans(m, s, n, t, 1, t1);
      n, t := n + 1, t1;
    }
  }

  // The head up to the test of `done`.
  function HeadMid(b: Ctx, lay: Layout, rhs: Expr): Ctx {
    var (h, result) := CompForOfSetup(b, lay, rhs);
    var b2 := EmitWords(Bind(h.cx, h.top), [Instr(LOOP_HEADER, 0, 0, 0)]);
    var (b4, done) := CompGetStr(EmitReg3(b2, ITERATOR_NEXT, result, h.iter, 0), result, "done");
    EmitJump(b4, JUMP_IF_TRUE, done, h.end)
  }

  // The second half: read `value` and assign the loop variable.
  lemma BindValueOk(m: Machine, F: Ctx, lay: Layout, b: Ctx, x: Sym, rhs: Expr, st: Store, s: State)
    returns (n: nat, t: State)
    requires World(m, F, lay) && In(CompForOfHead(b, lay, x, rhs).cx, F) && lay.localsEnd < b.top
             && Rel(lay, st, s.regs) && x in lay.vars
    requires s.pc == |HeadMid(b, lay, rhs).items|
    ensures var (h, result) := CompForOfSetup(b, lay, rhs);
            var g := CompForOfHead(b, lay, x, rhs);
            var v := Ask(m.host, Request(GET_PROPERTY, [], [Get(s.regs, result), VALUE]), map[], s.tr);
            && Runs(m, s, n, t) && RoundKeeps(lay, b, h, s.regs, t.regs)
            && (v.Thrown? ==>
                Rel(lay, st, t.regs) && h.tryStart <= t.pc < |g.cx.items| && EffectAt(m, t) == Raise(v.v, v.tr))
            && (v.Value? ==> Rel(lay, st[x := v.v], t.regs) && t.pc == |g.cx.items| && t.tr == v.tr)
  {
    hide Runs; hide EffectAt; hide WidthAt; hide EncodeRegs; hide EmitJump; hide CompGetStr; hide CompForOfSetup;
    hide In; hide Bind; hide MoveReg;
    hide Rel; hide Keep; hide CompForOfHead;
    var (h, result) := CompForOfSetup(b, lay, rhs);
    var b5 := HeadMid(b, lay, rhs);
    var (b6, value) := CompGetStr(b5, result, "value");
    HeadIn(m, F, lay, b, x, rhs);
    KeepRefl(lay, s.regs, b.top);
    n, t := GetStrOk(m, F, lay, b5, result, "value", st, s);
    RoundKeepsTrans(lay, b, h, s.regs, s.regs, t.regs, b5.top);
    var v := Ask(m.host, Request(GET_PROPERTY, [], [Get(s.regs, result), VALUE]), map[], s.tr);
    if v.Value? {
      var r := RegOf(lay, x);
      assert 1 <= r < lay.localsEnd;
      DoMove(m, F, b6, r, value, t);
      WriteLocal(lay, st, t.regs, x, v.v, b6.top);
      var t1 := State(|MoveReg(b6, r, value).items|, t.regs[r := v.v], t.tr);
      RunsTrans(m, s, n, t, 1, t1);
      RoundKeepsTrans(lay, b, h, s.regs, t.regs, t1.regs, b6.top);
      n, t := n + 1, t1;
    }
  }

  // The head of a round does what `Fetch` says.
  lemma FetchOk(m: Machine, F: Ctx, lay: Layout, b: Ctx, x: Sym, rhs: Expr, st: Store, s: State)
    returns (n: nat, t: State)
    requires World(m, F, lay) && In(CompForOfHead(b, lay, x, rhs).cx, F) && lay.localsEnd < b.top
             && Rel(lay, st, s.regs) && x in lay.vars
    requires s.pc == CompForOfHead(b, lay, x, rhs).tryStart && CompForOfHead(b, lay, x, rhs).end < |F.labels|
    ensures var g := CompForOfHead(b, lay, x, rhs);
            && Runs(m, s, n, t) && RoundKeeps(lay, b, g, s.regs, t.regs)
            && match Fetch(m.host, Get(s.regs, g.iter), s.tr)
               case Raised(v, tr) => Rel(lay, st, t.regs) && g.tryStart <= t.pc < |g.cx.items|
               && EffectAt(m, t) == Raise(v, tr)
               case Exhausted(tr) => Rel(lay, st, t.regs) && t.pc == F.labels[g.end].value && t.tr == tr
               case Got(v, tr) => Rel(lay, st[x := v], t.regs) && t.pc == |g.cx.items| && t.tr == tr
  {
    hide Runs; hide EffectAt; hide CompForOfSetup; hide In; hide Rel; hide Keep; hide HeadMid; hide Ask;
    hide CompForOfHead;
    HeadIn(m, F, lay, b, x, rhs);
    var (h, result) := CompForOfSetup(b, lay, rhs);
    n, t := AdvanceOk(m, F, lay, b, x, rhs, st, s);
    var f := Fetch(m.host, Get(s.regs, h.iter), s.tr);
    if t.pc == |HeadMid(b, lay, rhs).items| && Advanced(m.host, Get(s.regs, h.iter), s.tr) {
      var n2, t2 := BindValueOk(m, F, lay, b, x, rhs, st, t);
      RunsTrans(m, s, n, t, n2, t2);
      KeepTrans(lay, s.regs, t.regs, t2.regs, b.top, b.top);
      n, t := n + n2, t2;
    }
  }

  // The iterator has another value.
  predicate Advanced(h: Host, it: Val, tr: Trace) {
    var n := Ask(h, Request(ITERATOR_NEXT, [], [it]), map[], tr);
    n.Value? && var d := Ask(h, Request(GET_PROPERTY, [], [n.v, DONE]), map[], n.tr); d.Value? && !Truthy(d.v)
  }
}
