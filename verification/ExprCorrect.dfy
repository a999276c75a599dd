/**
 Correctness of expression lowering: in any finished program, the code of an
 expression computes the evaluator's value into the result register, performs the
 evaluator's requests in the evaluator's order, updates exactly the evaluator's
 locals, and disturbs no temporary that existed before; when the evaluator throws,
 the machine raises the same value inside the expression's region.
 */
module ExprCorrect {
  import opened Words
  import opened Machine
  import opened Assembly
  import opened Source
  import opened Lowering
  import opened Growth
  import opened Steps

  // Locals sit in distinct registers below localsEnd.
  ghost predicate WfLayout(lay: Layout) {
    && 1 <= lay.localsEnd < MAX_REGS
    && (forall x :: x in lay.vars ==> 1 <= lay.vars[x] < lay.localsEnd)
    && (forall x, y :: x in lay.vars && y in lay.vars && x != y ==> lay.vars[x] != lay.vars[y])
  }

  predicate WfExpr(lay: Layout, e: Expr)
    decreases e
  {
    match e
    case Lit(v) => !v.Ref?
    case Local(x) => x in lay.vars
    case Unary(op, e1) => UnaryOp(op) && WfExpr(lay, e1)
    case Binary(op, l, r) => BinaryOp(op) && WfExpr(lay, l) && WfExpr(lay, r)
    case ShortCircuit(_, l, r) => WfExpr(lay, l) && WfExpr(lay, r)
    case Cond(t, a, b) => WfExpr(lay, t) && WfExpr(lay, a) && WfExpr(lay, b)
    case Comma(l, r) => WfExpr(lay, l) && WfExpr(lay, r)
    case Assign(x, e1) => x in lay.vars && WfExpr(lay, e1)
    case Chain(b, links) => WfExpr(lay, b) && WfLinks(lay, links)
  }

  predicate WfLinks(lay: Layout, links: Links)
    decreases links
  {
    match links
    case End => true
    case Member(_, key, rest) => (key.Computed? ==> WfExpr(lay, key.e)) && WfLinks(lay, rest)
    case Invoke(_, args, rest) => WfArgs(lay, args) && WfLinks(lay, rest)
  }

  predicate WfArgs(lay: Layout, args: Args)
    decreases args
  {
    match args
    case NoArgs => true
    case Arg(e, rest) => WfExpr(lay, e) && WfArgs(lay, rest)
  }

  // The registers hold the store, and the reserved register is still undefined.
  ghost predicate Rel(lay: Layout, st: Store, regs: Regs) {
    && (forall x :: x in lay.vars ==> Get(regs, lay.vars[x]) == Look(st, x))
    && Get(regs, lay.localsEnd) == Undefined
  }

  // Every register from localsEnd up to `top` is as it was.
  ghost predicate Keep(lay: Layout, regs: Regs, regs': Regs, top: nat) {
    forall r :: lay.localsEnd <= r < top ==> Get(regs', r) == Get(regs, r)
  }

  ghost predicate World(m: Machine, F: Ctx, lay: Layout) {
    Runs16(m, F) && WfLayout(lay)
  }

  // The machine stands where b ends, with the store in place.
  ghost predicate At(b: Ctx, lay: Layout, st: Store, s: State) {
    s.pc == |b.items| && Rel(lay, st, s.regs) && lay.localsEnd < b.top
  }

  // n steps from s lead to t, which matches the evaluator's result ev for the code
  // between b and f with result register r.
  ghost predicate Computes(m: Machine, lay: Layout, b: Ctx, f: Ctx, r: nat, ev: ERes, s: State, n: nat, t: State) {
    && Runs(m, s, n, t)
    && Keep(lay, s.regs, t.regs, b.top)
    && Rel(lay, ev.st, t.regs)
    && (ev.Value? ==> t.pc == |f.items| && t.tr == ev.tr && Get(t.regs, r) == ev.v)
    && (ev.Thrown? ==> |b.items| <= t.pc < |f.items| && EffectAt(m, t) == Raise(ev.v, ev.tr))
  }

  // Writing a temporary disturbs neither the locals nor earlier temporaries.
  lemma WriteTemp(lay: Layout, st: Store, regs: Regs, r: nat, v: Val, top: nat)
    requires WfLayout(lay) && Rel(lay, st, regs) && lay.localsEnd < r && top <= r
    ensures Rel(lay, st, regs[r := v]) && Keep(lay, regs, regs[r := v], top)
  {
  }

  // Writing a local's register is assigning the local.
  lemma WriteLocal(lay: Layout, st: Store, regs: Regs, x: Sym, v: Val, top: nat)
    requires WfLayout(lay) && Rel(lay, st, regs) && x in lay.vars
    ensures Rel(lay, st[x := v], regs[lay.vars[x] := v]) && Keep(lay, regs, regs[lay.vars[x] := v], top)
  {
  }

  lemma KeepTrans(lay: Layout, r0: Regs, r1: Regs, r2: Regs, low: nat, top: nat)
    requires Keep(lay, r0, r1, low) && Keep(lay, r1, r2, top) && low <= top
    ensures Keep(lay, r0, r2, low)
  {
  }

  lemma KeepGet(lay: Layout, r0: Regs, r1: Regs, top: nat, r: nat)
    requires Keep(lay, r0, r1, top) && lay.localsEnd <= r < top
    ensures Get(r1, r) == Get(r0, r)
  {
  }

  // First part normal, second part continues from there.
  lemma Then(m: Machine, lay: Layout, b: Ctx, mid: Ctx, f: Ctx, r: nat, ev: ERes, s: State, n1: nat, s1: State, n2: nat,
             t: State)
    requires Runs(m, s, n1, s1) && Keep(lay, s.regs, s1.regs, b.top)
    requires Computes(m, lay, mid, f, r, ev, s1, n2, t)
    requires b.top <= mid.top && |b.items| <= |mid.items|
    ensures Computes(m, lay, b, f, r, ev, s, n1 + n2, t)
  {
    hide EffectAt; hide Runs;
    RunsTrans(m, s, n1, s1, n2, t);
  }

  // A throw inside a part is a throw of the whole.
  lemma ThrownIn(m: Machine, lay: Layout, b: Ctx, mid: Ctx, f: Ctx, r1: nat, r: nat, ev: ERes, s: State, n: nat,
                 t: State)
    requires Computes(m, lay, b, mid, r1, ev, s, n, t) && ev.Thrown?
    requires |mid.items| <= |f.items|
    ensures Computes(m, lay, b, f, r, ev, s, n, t)
  {
    hide EffectAt; hide Runs;
  }

  // A host request into a fresh temporary, as the last instruction of a region.
  lemma Asked(m: Machine, lay: Layout, b: Ctx, f: Ctx, dst: nat, req: Request, st: Store, s: State)
    returns (n: nat, t: State)
    requires WfLayout(lay) && Rel(lay, st, s.regs) && lay.localsEnd < b.top <= dst
    requires |b.items| <= s.pc < |f.items|
    requires EffectAt(m, s) == AskHost(m.host, req, Some(dst), s.regs, s.tr)
    requires s.pc + WidthAt(m, s.pc) == |f.items|
    ensures Computes(m, lay, b, f, dst, Ask(m.host, req, st, s.tr), s, n, t)
  {
    hide EffectAt; hide WidthAt;
    var ev := Ask(m.host, req, st, s.tr);
    if ev.Value? {
      WriteTemp(lay, st, s.regs, dst, ev.v, b.top);
      StepNext(m, s, s.regs[dst := ev.v], ev.tr);
      n, t := 1, State(|f.items|, s.regs[dst := ev.v], ev.tr);
    } else {
      n, t := 0, s;
    }
  }

  // ---- operators --------------------------------------------------------

  lemma AtUnary(m: Machine, F: Ctx, lay: Layout, b: Ctx, op: Opcode, dst: nat, v: nat, st: Store, s: State)
    returns (n: nat, t: State)
    requires World(m, F, lay) && In(EmitReg2(b, op, dst, v), F) && UnaryOp(op)
    requires At(b, lay, st, s) && dst < 0x1_0000 && v < 0x1_0000
    requires lay.localsEnd < dst
    ensures var ev := EvalUnary(m.host, op, Get(s.regs, v), st, s.tr);
            Computes(m, lay, b.(top := dst), EmitReg2(b, op, dst, v), dst, ev, s, n, t)
  {
    hide EffectAt; hide WidthAt; hide EncodeRegs; hide Runs; hide NarrowShape; hide Reads;
    AtRegs(m, F, b, op, dst, v, 0, 3, s);
    var l := LogicalOf(op, dst, v, 0, |EncodeRegs(op, dst, v, 0, 3)|);
    if op == NOT {
      var x := Bool(!Truthy(Get(s.regs, v)));
      WriteTemp(lay, st, s.regs, dst, x, dst);
      StepNext(m, s, s.regs[dst := x], s.tr);
      n, t := 1, State(|EmitReg2(b, op, dst, v).items|, s.regs[dst := x], s.tr);
    } else {
      ExecHost(m, l, s);
      ShapeHost(l);
      assert Reads(s.regs, [v]) == [Get(s.regs, v)];
      n, t := Asked(m, lay, b.(top := dst), EmitReg2(b, op, dst, v), dst, Request(op, [], [Get(s.regs, v)]), st, s);
    }
  }

  lemma AtBinary(m: Machine, F: Ctx, lay: Layout, b: Ctx, op: Opcode, dst: nat, x: nat, y: nat, st: Store, s: State)
    returns (n: nat, t: State)
    requires World(m, F, lay) && In(EmitReg3(b, op, dst, x, y), F) && BinaryOp(op)
    requires At(b, lay, st, s) && dst < 0x1_0000 && x < 0x1_0000 && y < 0x1_0000
    requires lay.localsEnd < dst
    ensures var ev := EvalBinary(m.host, op, Get(s.regs, x), Get(s.regs, y), st, s.tr);
            Computes(m, lay, b.(top := dst), EmitReg3(b, op, dst, x, y), dst, ev, s, n, t)
  {
    hide EffectAt; hide WidthAt; hide EncodeRegs; hide Runs; hide PureBinary;
    var f := EmitReg3(b, op, dst, x, y);
    var (l, r) := (Get(s.regs, x), Get(s.regs, y));
    if IsBinary(op) {
      AtRegs(m, F, b, op, dst, x, y, 7, s);
      ExecBinary(m, LogicalOf(op, dst, x, y, |EncodeRegs(op, dst, x, y, 7)|), s);
    } else {
      AtHost(m, F, b, op, dst, x, y, s, Request(op, [], [l, r]), Some(dst));
    }
    var p := PureBinary(op, l, r);
    if IsBinary(op) && p.Some? {
      WriteTemp(lay, st, s.regs, dst, p.value, dst);
      StepNext(m, s, s.regs[dst := p.value], s.tr);
      n, t := 1, State(|f.items|, s.regs[dst := p.value], s.tr);
    } else {
      n, t := Asked(m, lay, b.(top := dst), f, dst, Request(op, [], [l, r]), st, s);
    }
  }

  lemma ExecBinary(m: Machine, l: Logical, s: State)
    requires IsBinary(l.op)
    ensures var (x, y) := (Get(s.regs, l.b), Get(s.regs, l.c));
            Exec(m.code, m.host, l, s.regs, s.tr) ==
            if PureBinary(l.op, x, y).Some? then Next(s.regs[l.a := PureBinary(l.op, x, y).value], s.tr)
            else AskHost(m.host, Request(l.op, [], [x, y]), Some(l.a), s.regs, s.tr)
  {
    hide PureBinary; hide AskHost;
  }

  // ---- expressions ------------------------------------------------------

  lemma {:induction false} ExprOk(m: Machine, F: Ctx, lay: Layout, b: Ctx, e: Expr, st: Store, s: State)
    returns (n: nat, t: State)
    requires World(m, F, lay) && WfExpr(lay, e)
    requires In(CompExpr(b, lay, e).0, F)
    requires At(b, lay, st, s)
    ensures var (f, r) := CompExpr(b, lay, e);
            Computes(m, lay, b, f, r, Eval(m.host, e, st, s.tr), s, n, t)
    decreases e, 1
  {
    hide EmitRegs; hide EmitJump; hide LoadValue; hide NewTemps; hide Runs; hide EffectAt; hide Ext;
    hide Rel; hide Keep; hide MoveReg; hide EvalUnary; hide EvalBinary;
    match e
    case Lit(v) => n, t := LitOk(m, F, lay, b, v, st, s);
    case Local(x) => n, t := LocalOk(m, F, lay, b, x, st, s);
    case Unary(op, e1) =>
      var (b1, v) := CompExpr(b, lay, e1);
      var (b2, dst) := NewTemp(b1);
      GrowExpr(b, lay, e1);
      PlainTemps(b1, 1);
      var f := EmitReg2(b2, op, dst, v);
      RegsShape(b2, op, dst, v, 0, 3);
      PlainIn(b2, f, F);
      PlainIn(b1, b2, F);
      ExtTop(b, b1);
      ExtItems(b, b1, {});
      var ev1 := Eval(m.host, e1, st, s.tr);
      n, t := ExprOk(m, F, lay, b, e1, st, s);
      if ev1.Thrown? {
        ThrownIn(m, lay, b, b1, f, v, dst, ev1, s, n, t);
      } else {
        var n2, t2 := AtUnary(m, F, lay, b2, op, dst, v, ev1.st, t);
        Then(m, lay, b, b2.(top := dst), f, dst, EvalUnary(m.host, op, ev1.v, ev1.st, ev1.tr), s, n, t, n2, t2);
        n, t := n + n2, t2;
      }
    case Binary(_, _, _) => n, t := BinaryOk(m, F, lay, b, e, st, s);
    case ShortCircuit(_, _, _) => n, t := LogicOk(m, F, lay, b, e, st, s);
    case Cond(_, _, _) => n, t := CondOk(m, F, lay, b, e, st, s);
    case Comma(x, y) =>
      var (b1, r1) := CompExpr(b, lay, x);
      var (f, r) := CompExpr(b1, lay, y);
      GrowExpr(b, lay, x);
      GrowExpr(b1, lay, y);
      ExtIn(b1, f, {}, F);
      ExtTop(b, b1);
      ExtItems(b, b1, {});
      ExtItems(b1, f, {});
      var ev1 := Eval(m.host, x, st, s.tr);
      n, t := ExprOk(m, F, lay, b, x, st, s);
      if ev1.Thrown? {
        ThrownIn(m, lay, b, b1, f, r1, r, ev1, s, n, t);
      } else {
        var n2, t2 := ExprOk(m, F, lay, b1, y, ev1.st, t);
        Then(m, lay, b, b1, f, r, Eval(m.host, y, ev1.st, ev1.tr), s, n, t, n2, t2);
        n, t := n + n2, t2;
      }
    case Assign(_, _) => n, t := AssignOk(m, F, lay, b, e, st, s);
    case Chain(_, _) => n, t := ChainOk(m, F, lay, b, e, st, s);
  }

  lemma LitOk(m: Machine, F: Ctx, lay: Layout, b: Ctx, v: Val, st: Store, s: State) returns (n: nat, t: State)
    requires World(m, F, lay) && !v.Ref?
    requires In(CompExpr(b, lay, Lit(v)).0, F)
    requires At(b, lay, st, s)
    ensures var (f, r) := CompExpr(b, lay, Lit(v));
            Computes(m, lay, b, f, r, Value(v, st, s.tr), s, n, t)
  {
    hide NewTemps; hide Runs; hide EffectAt; hide LoadConst; hide LoadInt; hide LoadBool; hide MoveReg;
    var (b1, dst) := NewTemp(b);
    PlainTemps(b, 1);
    PlainValue(b1, lay, dst, v);
    PlainIn(b1, LoadValue(b1, lay, dst, v), F);
    if v.Undefined? {
      DoUndefined(m, F, b1, lay, dst, s);
    } else if v.Bool? {
      DoBool(m, F, b1, dst, v.b, s);
      WriteTemp(lay, st, s.regs, b1.top, Num(Int(0)), b.top);
      WriteTemp(lay, st, s.regs[b1.top := Num(Int(0))], dst, v, b.top);
      n, t := 2, State(|LoadBool(b1, dst, v.b).items|, s.regs[b1.top := Num(Int(0))][dst := v], s.tr);
      return;
    } else if v.Num? && v.n.Int? && FitsI64(v.n.i) {
      DoInt(m, F, b1, dst, v.n.i, s);
    } else {
      DoConst(m, F, b1, dst, v, s);
    }
    WriteTemp(lay, st, s.regs, dst, v, b.top);
    n, t := 1, State(|LoadValue(b1, lay, dst, v).items|, s.regs[dst := v], s.tr);
  }

  lemma LocalOk(m: Machine, F: Ctx, lay: Layout, b: Ctx, x: Sym, st: Store, s: State) returns (n: nat, t: State)
    requires World(m, F, lay) && x in lay.vars
    requires In(CompExpr(b, lay, Local(x)).0, F)
    requires At(b, lay, st, s)
    ensures var (f, r) := CompExpr(b, lay, Local(x));
            Computes(m, lay, b, f, r, Value(Look(st, x), st, s.tr), s, n, t)
  {
    hide NewTemps; hide Runs; hide EffectAt; hide MoveReg;
    var (b1, dst) := NewTemp(b);
    PlainTemps(b, 1);
    MoveShape(b1, dst, lay.vars[x]);
    PlainIn(b1, MoveReg(b1, dst, lay.vars[x]), F);
    DoMove(m, F, b1, dst, lay.vars[x], s);
    WriteTemp(lay, st, s.regs, dst, Look(st, x), b.top);
    n, t := 1, State(|MoveReg(b1, dst, lay.vars[x]).items|, s.regs[dst := Look(st, x)], s.tr);
  }

  lemma {:induction false} BinaryOk(m: Machine, F: Ctx, lay: Layout, b: Ctx, e: Expr, st: Store, s: State)
    returns (n: nat, t: State)
    requires World(m, F, lay) && WfExpr(lay, e) && e.Binary?
    requires In(CompExpr(b, lay, e).0, F)
    requires At(b, lay, st, s)
    ensures var (f, r) := CompExpr(b, lay, e);
            Computes(m, lay, b, f, r, Eval(m.host, e, st, s.tr), s, n, t)
    decreases e, 0
  {
    hide EmitRegs; hide NewTemps; hide Runs; hide EffectAt; hide Ext; hide Rel; hide EvalBinary;
    var (b1, l) := CompExpr(b, lay, e.l);
    var (b2, r) := CompExpr(b1, lay, e.r);
    var (b3, dst) := NewTemp(b2);
    var f := EmitReg3(b3, e.op, dst, l, r);
    GrowExpr(b, lay, e.l);
    GrowExpr(b1, lay, e.r);
    PlainTemps(b2, 1);
    RegsShape(b3, e.op, dst, l, r, 7);
    PlainIn(b3, f, F);
    PlainIn(b2, b3, F);
    ExtIn(b1, b2, {}, F);
    ExtTop(b, b1); ExtTop(b1, b2);
    ExtItems(b, b1, {}); ExtItems(b1, b2, {});
    var ev1 := Eval(m.host, e.l, st, s.tr);
    n, t := ExprOk(m, F, lay, b, e.l, st, s);
    if ev1.Thrown? {
      ThrownIn(m, lay, b, b1, f, l, dst, ev1, s, n, t);
    } else {
      var ev2 := Eval(m.host, e.r, ev1.st, ev1.tr);
      var n2, t2 := ExprOk(m, F, lay, b1, e.r, ev1.st, t);
      Then(m, lay, b, b1, b2, r, ev2, s, n, t, n2, t2);
      if ev2.Thrown? {
        ThrownIn(m, lay, b, b2, f, r, dst, ev2, s, n + n2, t2);
        n, t := n + n2, t2;
      } else {
        assert Get(t2.regs, l) == ev1.v;
        var n3, t3 := AtBinary(m, F, lay, b3, e.op, dst, l, r, ev2.st, t2);
        Then(m, lay, b, b3.(top := dst), f, dst, EvalBinary(m.host, e.op, ev1.v, ev2.v, ev2.st, ev2.tr), s, n + n2, t2,
             n3, t3);
        n, t := n + n2 + n3, t3;
      }
    }
  }

  lemma {:induction false} AssignOk(m: Machine, F: Ctx, lay: Layout, b: Ctx, e: Expr, st: Store, s: State)
    returns (n: nat, t: State)
    requires World(m, F, lay) && WfExpr(lay, e) && e.Assign?
    requires In(CompExpr(b, lay, e).0, F)
    requires At(b, lay, st, s)
    ensures var (f, r) := CompExpr(b, lay, e);
            Computes(m, lay, b, f, r, Eval(m.host, e, st, s.tr), s, n, t)
    decreases e, 0
  {
    hide MoveReg; hide Runs; hide EffectAt; hide Ext;
    var (b1, r) := CompExpr(b, lay, e.e);
    var x := lay.vars[e.x];
    GrowExpr(b, lay, e.e);
    MoveShape(b1, x, r);
    var f := MoveReg(b1, x, r);
    PlainIn(b1, f, F);
    ExtTop(b, b1);
    ExtItems(b, b1, {});
    var ev1 := Eval(m.host, e.e, st, s.tr);
    n, t := ExprOk(m, F, lay, b, e.e, st, s);
    if ev1.Thrown? {
      ThrownIn(m, lay, b, b1, f, r, r, ev1, s, n, t);
    } else {
      DoMove(m, F, b1, x, r, t);
      WriteLocal(lay, ev1.st, t.regs, e.x, ev1.v, b.top);
      var t2 := State(|f.items|, t.regs[x := ev1.v], t.tr);
      RunsTrans(m, s, n, t, 1, t2);
      n, t := n + 1, t2;
    }
  }

  lemma {:induction false} LogicOk(m: Machine, F: Ctx, lay: Layout, b: Ctx, e: Expr, st: Store, s: State)
    returns (n: nat, t: State)
    requires World(m, F, lay) && WfExpr(lay, e) && e.ShortCircuit?
    requires In(CompExpr(b, lay, e).0, F)
    requires At(b, lay, st, s)
    ensures var (f, r) := CompExpr(b, lay, e);
            Computes(m, lay, b, f, r, Eval(m.host, e, st, s.tr), s, n, t)
    decreases e, 0
  {
    hide MoveReg; hide Runs; hide EffectAt; hide Ext; hide CompGuard; hide Decides; hide Rel; hide Keep; hide Bind;
    hide NewTemps;
    LogicParts(m.host, b, lay, e, st, s.tr);
    hide CompExpr; hide Eval;
    var (b1, dst) := CompExpr(b, lay, e.l);
    var (b2, end) := NewLabel(b1);
    var b3 := CompGuard(b2, e.lop, dst, end);
    var (b4, r) := CompExpr(b3, lay, e.r);
    var b5 := MoveReg(b4, dst, r);
    var f := Bind(b5, end);
    GrowExpr(b, lay, e.l);
    PlainGuard(b2, e.lop, dst, end);
    GrowExpr(b3, lay, e.r);
    MoveShape(b4, dst, r);
    ExtTop(b, b1); ExtTop(b3, b4);
    ExtItems(b, b1, {}); ExtItems(b3, b4, {});
    BindIn(b5, end, F);
    PlainIn(b4, b5, F);
    ExtIn(b3, b4, {}, F);
    PlainIn(b2, b3, F);
    assert In(b1, F);
    var ev1 := Eval(m.host, e.l, st, s.tr);
    n, t := ExprOk(m, F, lay, b, e.l, st, s);
    if ev1.Thrown? {
      ThrownIn(m, lay, b, b1, f, dst, dst, ev1, s, n, t);
      return;
    }
    var n2, t2 := GuardOk(m, F, lay, b2, e.lop, dst, end, ev1.st, t);
    RunsTrans(m, s, n, t, n2, t2);
    KeepTrans(lay, s.regs, t.regs, t2.regs, b.top, b2.top);
    KeepGet(lay, t.regs, t2.regs, b2.top, dst);
    if Decides(e.lop, ev1.v) {
      n, t := n + n2, t2;
    } else {
      var ev2 := Eval(m.host, e.r, ev1.st, ev1.tr);
      var n3, t3 := ExprOk(m, F, lay, b3, e.r, ev1.st, t2);
      Then(m, lay, b, b3, b4, r, ev2, s, n + n2, t2, n3, t3);
      if ev2.Thrown? {
        ThrownIn(m, lay, b, b4, f, r, dst, ev2, s, n + n2 + n3, t3);
        n, t := n + n2 + n3, t3;
      } else {
        DoMove(m, F, b4, dst, r, t3);
        WriteTemp(lay, ev2.st, t3.regs, dst, ev2.v, b.top);
        var t4 := State(|b5.items|, t3.regs[dst := ev2.v], t3.tr);
        RunsTrans(m, s, n + n2 + n3, t3, 1, t4);
        KeepTrans(lay, s.regs, t3.regs, t4.regs, b.top, b.top);
        n, t := n + n2 + n3 + 1, t4;
      }
    }
  }

  // One level of the lowering and of the evaluator.
  lemma LogicParts(h: Host, b: Ctx, lay: Layout, e: Expr, st: Store, tr: Trace)
    requires e.ShortCircuit?
    ensures var (b1, dst) := CompExpr(b, lay, e.l);
            var (b2, end) := NewLabel(b1);
            var (b4, r) := CompExpr(CompGuard(b2, e.lop, dst, end), lay, e.r);
            CompExpr(b, lay, e) == (Bind(MoveReg(b4, dst, r), end), dst)
    ensures var l := Eval(h, e.l, st, tr);
            Eval(h, e, st, tr) == if l.Thrown? || Decides(e.lop, l.v) then l else Eval(h, e.r, l.st, l.tr)
  {
    hide MoveReg; hide CompGuard; hide Bind; hide Decides;
  }

  lemma CondParts(h: Host, b: Ctx, lay: Layout, e: Expr, st: Store, tr: Trace)
    requires e.Cond?
    ensures var (b1, c) := CompExpr(b, lay, e.test);
            var (b2, dst) := NewTemp(b1);
            var (b3, elseL) := NewLabel(b2);
            var (b4, endL) := NewLabel(b3);
            var (b6, x) := CompExpr(EmitJump(b4, JUMP_IF_FALSE, c, elseL), lay, e.thn);
            var (b10, y) := CompExpr(Bind(EmitGoto(MoveReg(b6, dst, x), endL), elseL), lay, e.els);
            CompExpr(b, lay, e) == (Bind(MoveReg(b10, dst, y), endL), dst)
    ensures var c := Eval(h, e.test, st, tr);
            Eval(h, e, st, tr) == if c.Thrown? then c else if Truthy(c.v) then Eval(h, e.thn, c.st, c.tr)
              else Eval(h, e.els, c.st, c.tr)
  {
    hide MoveReg; hide EmitJump; hide Bind; hide NewTemps;
  }

  lemma BindIn(b: Ctx, l: nat, F: Ctx)
    requires In(Bind(b, l), F)
    ensures In(b, F) && l < |F.labels| && l < |b.labels| && F.labels[l] == Some(|b.items|)
    ensures Bind(b, l) == b.(labels := b.labels[l := Some(|b.items|)])
  {
    assert Bind(b, l).labels[l] == Some(|b.items|);
  }

  // The guard of a short circuit jumps to the end exactly when the left value decides.
  lemma GuardOk(m: Machine, F: Ctx, lay: Layout, b: Ctx, lop: Logic, dst: nat, end: nat, st: Store, s: State)
    returns (n: nat, t: State)
    requires World(m, F, lay) && In(CompGuard(b, lop, dst, end), F)
    requires At(b, lay, st, s) && dst < b.top && end < |F.labels|
    ensures Runs(m, s, n, t) && t.tr == s.tr && Keep(lay, s.regs, t.regs, b.top) && Rel(lay, st, t.regs)
    ensures t.pc == if Decides(lop, Get(s.regs, dst)) then F.labels[end].value else |CompGuard(b, lop, dst, end).items|
  {
    hide EmitJump; hide Runs; hide EffectAt; hide CompNullish;
    var op := if lop.Or? then JUMP_IF_TRUE else JUMP_IF_FALSE;
    if lop.Coalesce? {
      var (b1, c) := CompNullish(b, dst);
      PlainJump(b1, op, c, end);
      PlainIn(b1, EmitJump(b1, op, c, end), F);
      n, t := NullishOk(m, F, lay, b, dst, st, s);
      DoBranch(m, F, b1, op, c, end, t);
      var pc := if Taken(op, Get(t.regs, c)) then F.labels[end].value else |EmitJump(b1, op, c, end).items|;
      RunsTrans(m, s, n, t, 1, State(pc, t.regs, t.tr));
      n, t := n + 1, State(pc, t.regs, t.tr);
    } else {
      PlainJump(b, op, dst, end);
      PlainIn(b, EmitJump(b, op, dst, end), F);
      DoBranch(m, F, b, op, dst, end, s);
      var pc := if Taken(op, Get(s.regs, dst)) then F.labels[end].value else |EmitJump(b, op, dst, end).items|;
      n, t := 1, State(pc, s.regs, s.tr);
    }
  }

  // The nullish test: a fresh register holds whether v is null or undefined.
  lemma NullishOk(m: Machine, F: Ctx, lay: Layout, b: Ctx, v: nat, st: Store, s: State) returns (n: nat, t: State)
    requires World(m, F, lay) && In(CompNullish(b, v).0, F)
    requires At(b, lay, st, s) && v < b.top
    ensures var (f, c) := CompNullish(b, v);
            && Runs(m, s, n, t) && t.pc == |f.items| && t.tr == s.tr
            && Keep(lay, s.regs, t.regs, b.top) && Rel(lay, st, t.regs)
            && b.top <= c < f.top && Get(t.regs, c) == Bool(Nullish(Get(s.regs, v)))
  {
    hide Runs; hide EffectAt; hide NewTemps; hide LoadConst; hide EmitRegs; hide EvalBinary;
    var (b1, k) := NewTemp(b);
    PlainTemps(b, 1);
    var b2 := LoadConst(b1, k, Null);
    PlainConst(b1, k, Null);
    var (b3, c) := NewTemp(b2);
    PlainTemps(b2, 1);
    var f := EmitReg3(b3, EQ, c, v, k);
    RegsShape(b3, EQ, c, v, k, 7);
    PlainIn(b3, f, F);
    PlainIn(b2, b3, F);
    PlainIn(b1, b2, F);
    DoConst(m, F, b1, k, Null, s);
    var s1 := State(|b2.items|, s.regs[k := Null], s.tr);
    WriteTemp(lay, st, s.regs, k, Null, b.top);
    NullEq(m.host, Get(s1.regs, v), st, s.tr);
    n, t := AtBinary(m, F, lay, b3, EQ, c, v, k, st, s1);
    RunsTrans(m, s, 1, s1, n, t);
    n := n + 1;
  }

  // Loose equality with null is exactly nullishness.
  lemma NullEq(h: Host, v: Val, st: Store, tr: Trace)
    ensures EvalBinary(h, EQ, v, Null, st, tr) == Value(Bool(Nullish(v)), st, tr)
  {
  }

  lemma {:induction false} CondOk(m: Machine, F: Ctx, lay: Layout, b: Ctx, e: Expr, st: Store, s: State)
    returns (n: nat, t: State)
    requires World(m, F, lay) && WfExpr(lay, e) && e.Cond?
    requires In(CompExpr(b, lay, e).0, F)
    requires At(b, lay, st, s)
    ensures var (f, r) := CompExpr(b, lay, e);
            Computes(m, lay, b, f, r, Eval(m.host, e, st, s.tr), s, n, t)
    decreases e, 0
  {
    hide MoveReg; hide Runs; hide EffectAt; hide Ext; hide EmitJump; hide NewTemps; hide Bind; hide Rel; hide Keep;
    hide Plain;
    CondParts(m.host, b, lay, e, st, s.tr);
    hide CompExpr; hide Eval;
    var (b1, c) := CompExpr(b, lay, e.test);
    var (b2, dst) := NewTemp(b1);
    var (b3, elseL) := NewLabel(b2);
    var (b4, endL) := NewLabel(b3);
    var b5 := EmitJump(b4, JUMP_IF_FALSE, c, elseL);
    var (b6, x) := CompExpr(b5, lay, e.thn);
    var b7 := MoveReg(b6, dst, x);
    var b8 := EmitGoto(b7, endL);
    var b9 := Bind(b8, elseL);
    var (b10, y) := CompExpr(b9, lay, e.els);
    var b11 := MoveReg(b10, dst, y);
    var f := Bind(b11, endL);
    GrowExpr(b, lay, e.test); GrowExpr(b5, lay, e.thn); GrowExpr(b9, lay, e.els);
    PlainTemps(b1, 1);
    JumpShape(b4, JUMP_IF_FALSE, c, elseL); JumpShape(b7, JUMP, 0, endL);
    MoveShape(b6, dst, x); MoveShape(b10, dst, y);
    BindIn(b11, endL, F); PlainIn(b10, b11, F); ExtIn(b9, b10, {}, F); BindIn(b8, elseL, F);
    PlainIn(b7, b8, F); PlainIn(b6, b7, F); ExtIn(b5, b6, {}, F); PlainIn(b4, b5, F);
    assert In(b2, F);
    PlainIn(b1, b2, F);
    ExtTop(b, b1); ExtTop(b5, b6); ExtTop(b9, b10);
    ExtItems(b, b1, {}); ExtItems(b5, b6, {}); ExtItems(b9, b10, {});
    var ev1 := Eval(m.host, e.test, st, s.tr);
    n, t := ExprOk(m, F, lay, b, e.test, st, s);
    if ev1.Thrown? {
      ThrownIn(m, lay, b, b1, f, c, dst, ev1, s, n, t);
      return;
    }
    DoBranch(m, F, b4, JUMP_IF_FALSE, c, elseL, t);
    var (bb, ee, bm, rr) := if Truthy(ev1.v) then (b5, e.thn, b6, x) else (b9, e.els, b10, y);
    var t1 := State(|bb.items|, t.regs, t.tr);
    RunsTrans(m, s, n, t, 1, t1);
    var ev2 := Eval(m.host, ee, ev1.st, ev1.tr);
    var n2, t2 := ExprOk(m, F, lay, bb, ee, ev1.st, t1);
    Then(m, lay, b, bb, bm, rr, ev2, s, n + 1, t1, n2, t2);
    if ev2.Thrown? {
      ThrownIn(m, lay, b, bm, f, rr, dst, ev2, s, n + 1 + n2, t2);
      n, t := n + 1 + n2, t2;
      return;
    }
    DoMove(m, F, bm, dst, rr, t2);
    WriteTemp(lay, ev2.st, t2.regs, dst, ev2.v, b.top);
    var t3 := State(|MoveReg(bm, dst, rr).items|, t2.regs[dst := ev2.v], t2.tr);
    RunsTrans(m, s, n + 1 + n2, t2, 1, t3);
    KeepTrans(lay, s.regs, t2.regs, t3.regs, b.top, b.top);
    n, t := n + 1 + n2 + 1, t3;
    if Truthy(ev1.v) {
      DoGoto(m, F, b7, endL, t3);
      var t4 := State(|b11.items|, t3.regs, t3.tr);
      RunsTrans(m, s, n, t3, 1, t4);
      n, t := n + 1, t4;
    }
  }

  // ---- optional chains --------------------------------------------------

  // The chain's code runs to the value of the remaining links, or has already left
  // through the exit label with undefined in dst.
  ghost predicate ChainTo(m: Machine, F: Ctx, lay: Layout, b: Ctx, f: Ctx, dst: nat, exit: nat, r: nat, ev: ERes,
                          s: State, n: nat, t: State) {
    && Runs(m, s, n, t)
    && (forall i :: lay.localsEnd <= i < b.top && i != dst ==> Get(t.regs, i) == Get(s.regs, i))
    && Rel(lay, ev.st, t.regs)
    && (ev.Value? ==>
          && t.tr == ev.tr
          && ((t.pc == |f.items| && Get(t.regs, r) == ev.v)
              || (t.pc == Target(F.labels, exit) && Get(t.regs, dst) == ev.v)))
    && (ev.Thrown? ==> |b.items| <= t.pc < |f.items| && EffectAt(m, t) == Raise(ev.v, ev.tr))
  }

  lemma {:induction false} ChainOk(m: Machine, F: Ctx, lay: Layout, b: Ctx, e: Expr, st: Store, s: State)
    returns (n: nat, t: State)
    requires World(m, F, lay) && WfExpr(lay, e) && e.Chain?
    requires In(CompExpr(b, lay, e).0, F)
    requires At(b, lay, st, s)
    ensures var (f, r) := CompExpr(b, lay, e);
            Computes(m, lay, b, f, r, Eval(m.host, e, st, s.tr), s, n, t)
    decreases e, 0
  {
    hide MoveReg; hide Runs; hide EffectAt; hide Ext; hide NewTemps; hide CompLinks; hide EvalLinks; hide Bind;
    var (b1, exit) := NewLabel(b);
    var (b2, dst) := NewTemp(b1);
    var (b3, cur) := CompExpr(b2, lay, e.base);
    var (b4, last) := CompLinks(b3, lay, e.links, dst, exit, cur, None);
    var b5 := MoveReg(b4, dst, last);
    var f := Bind(b5, exit);
    PlainTemps(b1, 1);
    GrowExpr(b2, lay, e.base);
    GrowLinks(b3, lay, e.links, dst, exit, cur, None);
    MoveShape(b4, dst, last);
    BindIn(b5, exit, F); PlainIn(b4, b5, F); ExtIn(b3, b4, {}, F); ExtIn(b2, b3, {}, F);
    ExtTop(b2, b3); ExtTop(b3, b4);
    ExtItems(b2, b3, {}); ExtItems(b3, b4, {});
    var ev1 := Eval(m.host, e.base, st, s.tr);
    n, t := ExprOk(m, F, lay, b2, e.base, st, s);
    if ev1.Thrown? {
      ThrownIn(m, lay, b2, b3, f, cur, dst, ev1, s, n, t);
      return;
    }
    var ev2 := EvalLinks(m.host, e.links, ev1.v, None, ev1.st, ev1.tr);
    var n2, t2 := LinksOk(m, F, lay, b3, e.links, dst, exit, cur, None, ev1.st, t);
    RunsTrans(m, s, n, t, n2, t2);
    n := n + n2;
    if ev2.Value? && !(t2.pc == |f.items| && Get(t2.regs, dst) == ev2.v) {
      DoMove(m, F, b4, dst, last, t2);
      WriteTemp(lay, ev2.st, t2.regs, dst, ev2.v, b.top);
      var t3 := State(|b5.items|, t2.regs[dst := ev2.v], t2.tr);
      RunsTrans(m, s, n, t2, 1, t3);
      n, t := n + 1, t3;
    } else {
      t := t2;
    }
  }

  lemma {:induction false} LinksOk(m: Machine, F: Ctx, lay: Layout, b: Ctx, links: Links, dst: nat, exit: nat, cur: nat,
                                   recv: Option<nat>, st: Store, s: State)
    returns (n: nat, t: State)
    requires World(m, F, lay) && WfLinks(lay, links)
    requires In(CompLinks(b, lay, links, dst, exit, cur, recv).0, F)
    requires At(b, lay, st, s) && exit < |F.labels|
    requires lay.localsEnd < dst < b.top && lay.localsEnd < cur < b.top && cur != dst
    requires recv.Some? ==> lay.localsEnd < recv.value < b.top && recv.value != dst
    ensures var (f, r) := CompLinks(b, lay, links, dst, exit, cur, recv);
            var rv := if recv.Some? then Some(Get(s.regs, recv.value)) else None;
            ChainTo(m, F, lay, b, f, dst, exit, r, EvalLinks(m.host, links, Get(s.regs, cur), rv, st, s.tr), s, n, t)
    decreases links, 0, 1
  {
    hide Runs; hide EffectAt; hide Ext; hide CompExit; hide CompMember; hide CompInvoke; hide EvalLinks;
    hide MemberEval; hide InvokeEval; hide CompLinks;
    RunsNone(m, s);
    n, t := 0, s;
    var v := Get(s.regs, cur);
    var rv := if recv.Some? then Some(Get(s.regs, recv.value)) else None;
    EvalLink(m.host, links, v, rv, st, s.tr);
    CompLink(b, lay, links, dst, exit, cur, recv);
    if links.End? { return; }
    LinkGrows(b, lay, links, dst, exit, cur, recv, F);
    var b1 := if links.optional then CompExit(b, lay, cur, dst, exit) else b;
    if links.optional {
      n, t := ExitOk(m, F, lay, b, cur, dst, exit, st, s);
      if Nullish(v) { return; }
    }
    var n2, t2 := LinkOk(m, F, lay, b1, links, dst, exit, cur, recv, st, t);
    RunsTrans(m, s, n, t, n2, t2);
    n, t := n + n2, t2;
  }

  // One link past its nullish check, and everything after it.
  lemma {:induction false} LinkOk(m: Machine, F: Ctx, lay: Layout, b1: Ctx, links: Links, dst: nat, exit: nat, cur: nat,
                                  recv: Option<nat>, st: Store, s: State)
    returns (n: nat, t: State)
    requires World(m, F, lay) && WfLinks(lay, links) && !links.End?
    requires At(b1, lay, st, s) && exit < |F.labels|
    requires lay.localsEnd < dst < b1.top && lay.localsEnd < cur < b1.top && cur != dst
    requires recv.Some? ==> lay.localsEnd < recv.value < b1.top && recv.value != dst
    requires var (b2, nxt) := LinkComp(b1, lay, links, cur, recv);
             var f := CompLinks(b2, lay, links.rest, dst, exit, nxt, NextRecv(links, cur)).0;
             In(b2, F) && In(f, F) && b1.top <= nxt < b2.top && |b1.items| <= |b2.items| <= |f.items|
    ensures var (b2, nxt) := LinkComp(b1, lay, links, cur, recv);
            var (f, r) := CompLinks(b2, lay, links.rest, dst, exit, nxt, NextRecv(links, cur));
            var v := Get(s.regs, cur);
            var rv := if recv.Some? then Some(Get(s.regs, recv.value)) else None;
            ChainTo(m, F, lay, b1, f, dst, exit, r, LinkEval(m.host, links, v, rv, st, s.tr), s, n, t)
    decreases links, 0, 0
  {
    hide Runs; hide EffectAt; hide Ext; hide CompMember; hide CompInvoke; hide EvalLinks;
    hide MemberEval; hide InvokeEval; hide CompLinks;
    var v := Get(s.regs, cur);
    var rv := if recv.Some? then Some(Get(s.regs, recv.value)) else None;
    var (b2, nxt) := LinkComp(b1, lay, links, cur, recv);
    var ev := LinkStep(m.host, links, v, rv, st, s.tr);
    if links.Member? {
      n, t := MemberOk(m, F, lay, b1, links.key, cur, st, s);
    } else {
      n, t := InvokeOk(m, F, lay, b1, links.args, cur, recv, st, s);
    }
    if ev.Value? {
      var n3, t3 := LinksOk(m, F, lay, b2, links.rest, dst, exit, nxt, NextRecv(links, cur), ev.st, t);
      RunsTrans(m, s, n, t, n3, t3);
      n, t := n + n3, t3;
    }
  }

  function LinkComp(b: Ctx, lay: Layout, links: Links, cur: nat, recv: Option<nat>): (Ctx, nat)
    requires !links.End?
  {
    if links.Member? then CompMember(b, lay, links.key, cur) else CompInvoke(b, lay, links.args, cur, recv)
  }

  function NextRecv<T>(links: Links, cur: T): Option<T> {
    if links.Member? then Some(cur) else None
  }

  function LinkStep(h: Host, links: Links, v: Val, recv: Option<Val>, st: Store, tr: Trace): ERes
    requires !links.End?
  {
    if links.Member? then MemberEval(h, links.key, v, st, tr) else InvokeEval(h, links.args, v, recv, st, tr)
  }

  function LinkEval(h: Host, links: Links, v: Val, recv: Option<Val>, st: Store, tr: Trace): ERes
    requires !links.End?
  {
    var ev := LinkStep(h, links, v, recv, st, tr);
    if ev.Thrown? then ev else EvalLinks(h, links.rest, ev.v, NextRecv(links, v), ev.st, ev.tr)
  }

  lemma EvalLink(h: Host, links: Links, v: Val, recv: Option<Val>, st: Store, tr: Trace)
    ensures EvalLinks(h, links, v, recv, st, tr) ==
            if links.End? then Value(v, st, tr)
            else if links.optional && Nullish(v) then Value(Undefined, st, tr)
            else LinkEval(h, links, v, recv, st, tr)
  {
  }

  lemma CompLink(b: Ctx, lay: Layout, links: Links, dst: nat, exit: nat, cur: nat, recv: Option<nat>)
    ensures CompLinks(b, lay, links, dst, exit, cur, recv) ==
            if links.End? then (b, cur)
            else
              var b1 := if links.optional then CompExit(b, lay, cur, dst, exit) else b;
              var (b2, nxt) := LinkComp(b1, lay, links, cur, recv);
              CompLinks(b2, lay, links.rest, dst, exit, nxt, NextRecv(links, cur))
  {
    hide CompExit; hide CompMember; hide CompInvoke;
  }

  lemma RunsNone(m: Machine, s: State)
    ensures Runs(m, s, 0, s)
  {
  }

  // The evaluator's view of one link, past its nullish check.
  function MemberEval(h: Host, key: Key, v: Val, st: Store, tr: Trace): ERes {
    var k := EvalKey(h, key, st, tr);
    if k.Thrown? then k else Ask(h, Request(GET_PROPERTY, [], [v, k.v]), k.st, k.tr)
  }

  function InvokeEval(h: Host, args: Args, v: Val, recv: Option<Val>, st: Store, tr: Trace): ERes {
    var receiver := if recv.Some? then recv.value else Undefined;
    var (vs, a) := EvalArgs(h, args, st, tr);
    if a.Thrown? then a else Ask(h, Request(CALL, [|vs|], [v, receiver] + vs), a.st, a.tr)
  }

  // The stages of one link, with their sizes and what of them is in the program.
  lemma LinkGrows(b: Ctx, lay: Layout, links: Links, dst: nat, exit: nat, cur: nat, recv: Option<nat>, F: Ctx)
    requires !links.End?
    requires In(CompLinks(b, lay, links, dst, exit, cur, recv).0, F)
    ensures var b1 := if links.optional then CompExit(b, lay, cur, dst, exit) else b;
            var (b2, nxt) := LinkComp(b1, lay, links, cur, recv);
            var f := CompLinks(b, lay, links, dst, exit, cur, recv).0;
            && In(b1, F) && In(b2, F) && b.top <= b1.top <= nxt < b2.top
            && |b.items| <= |b1.items| <= |b2.items| <= |f.items|
  {
    hide Ext; hide CompExit; hide CompMember; hide CompInvoke; hide CompLinks;
    CompLink(b, lay, links, dst, exit, cur, recv);
    var b1 := if links.optional then CompExit(b, lay, cur, dst, exit) else b;
    var (b2, nxt) := LinkComp(b1, lay, links, cur, recv);
    var f := CompLinks(b2, lay, links.rest, dst, exit, nxt, NextRecv(links, cur)).0;
    GrowLinks(b2, lay, links.rest, dst, exit, nxt, NextRecv(links, cur));
    if links.Member? { GrowMember(b1, lay, links.key, cur); } else { GrowInvoke(b1, lay, links.args, cur, recv); }
    ExtRefl(b, {});
    GrowExit(b, lay, cur, dst, exit);
    ExtIn(b2, f, {}, F);
    ExtIn(b1, b2, {}, F);
    ExtTop(b, b1); ExtTop(b1, b2);
    ExtItems(b, b1, {}); ExtItems(b1, b2, {}); ExtItems(b2, f, {});
  }

  // An optional link leaves the chain with undefined, or goes on unchanged.
  lemma ExitOk(m: Machine, F: Ctx, lay: Layout, b: Ctx, v: nat, dst: nat, exit: nat, st: Store, s: State)
    returns (n: nat, t: State)
    requires World(m, F, lay) && In(CompExit(b, lay, v, dst, exit), F)
    requires At(b, lay, st, s) && v < b.top && exit < |F.labels| && lay.localsEnd < dst < b.top
    ensures Runs(m, s, n, t) && t.tr == s.tr && Rel(lay, st, t.regs)
    ensures forall i :: lay.localsEnd <= i < b.top && i != dst ==> Get(t.regs, i) == Get(s.regs, i)
    ensures if Nullish(Get(s.regs, v)) then t.pc == F.labels[exit].value && Get(t.regs, dst) == Undefined
            else t.pc == |CompExit(b, lay, v, dst, exit).items| && Get(t.regs, dst) == Get(s.regs, dst)
  {
    hide Runs; hide EffectAt; hide MoveReg; hide EmitJump; hide CompNullish; hide Bind;
    var (b1, c) := CompNullish(b, v);
    var (b2, keep) := NewLabel(b1);
    var b3 := EmitJump(b2, JUMP_IF_FALSE, c, keep);
    var b4 := LoadUndefined(b3, lay, dst);
    var b5 := EmitGoto(b4, exit);
    PlainNullish(b, v);
    JumpShape(b2, JUMP_IF_FALSE, c, keep);
    MoveShape(b3, dst, lay.localsEnd);
    JumpShape(b4, JUMP, 0, exit);
    BindIn(b5, keep, F); PlainIn(b4, b5, F); PlainIn(b3, b4, F); PlainIn(b2, b3, F);
    assert In(b1, F);
    n, t := NullishOk(m, F, lay, b, v, st, s);
    DoBranch(m, F, b2, JUMP_IF_FALSE, c, keep, t);
    if Nullish(Get(s.regs, v)) {
      var t1 := State(|b3.items|, t.regs, t.tr);
      RunsTrans(m, s, n, t, 1, t1);
      DoUndefined(m, F, b3, lay, dst, t1);
      var t2 := State(|b4.items|, t1.regs[dst := Undefined], t.tr);
      RunsTrans(m, s, n + 1, t1, 1, t2);
      DoGoto(m, F, b4, exit, t2);
      var t3 := State(F.labels[exit].value, t2.regs, t.tr);
      RunsTrans(m, s, n + 2, t2, 1, t3);
      WriteTemp(lay, st, t.regs, dst, Undefined, dst);
      n, t := n + 3, t3;
    } else {
      var t1 := State(|b5.items|, t.regs, t.tr);
      RunsTrans(m, s, n, t, 1, t1);
      n, t := n + 1, t1;
    }
  }

  lemma {:induction false} MemberOk(m: Machine, F: Ctx, lay: Layout, b: Ctx, key: Key, cur: nat, st: Store, s: State)
    returns (n: nat, t: State)
    requires World(m, F, lay) && (key.Computed? ==> WfExpr(lay, key.e))
    requires In(CompMember(b, lay, key, cur).0, F)
    requires At(b, lay, st, s) && lay.localsEnd < cur < b.top
    ensures var (f, r) := CompMember(b, lay, key, cur);
            Computes(m, lay, b, f, r, MemberEval(m.host, key, Get(s.regs, cur), st, s.tr), s, n, t)
    decreases key, 4
  {
    hide Runs; hide EffectAt; hide WidthAt; hide EmitRegs; hide NewTemps; hide Ext;
    var (b1, k) := CompKey(b, lay, key);
    var (b2, dst) := NewTemp(b1);
    var f := EmitReg3(b2, GET_PROPERTY, dst, cur, k);
    GrowKey(b, lay, key);
    PlainTemps(b1, 1);
    RegsShape(b2, GET_PROPERTY, dst, cur, k, 7);
    PlainIn(b2, f, F); PlainIn(b1, b2, F);
    ExtTop(b, b1); ExtItems(b, b1, {});
    var ev := EvalKey(m.host, key, st, s.tr);
    n, t := KeyOk(m, F, lay, b, key, st, s);
    if ev.Thrown? {
      ThrownIn(m, lay, b, b1, f, k, dst, ev, s, n, t);
    } else {
      var req := Request(GET_PROPERTY, [], [Get(s.regs, cur), ev.v]);
      AtHost(m, F, b2, GET_PROPERTY, dst, cur, k, t, req, Some(dst));
      var n2, t2 := Asked(m, lay, b2.(top := dst), f, dst, req, ev.st, t);
      Then(m, lay, b, b2.(top := dst), f, dst, Ask(m.host, req, ev.st, ev.tr), s, n, t, n2, t2);
      n, t := n + n2, t2;
    }
  }

  lemma {:induction false} KeyOk(m: Machine, F: Ctx, lay: Layout, b: Ctx, key: Key, st: Store, s: State)
    returns (n: nat, t: State)
    requires World(m, F, lay) && (key.Computed? ==> WfExpr(lay, key.e))
    requires In(CompKey(b, lay, key).0, F)
    requires At(b, lay, st, s)
    ensures var (f, r) := CompKey(b, lay, key);
            Computes(m, lay, b, f, r, EvalKey(m.host, key, st, s.tr), s, n, t)
    decreases key, 2
  {
    hide Runs; hide EffectAt; hide LoadConst; hide NewTemps;
    if key.Computed? {
      n, t := ExprOk(m, F, lay, b, key.e, st, s);
    } else {
      var (b1, k) := NewTemp(b);
      PlainTemps(b, 1);
      PlainConst(b1, k, Str(key.name));
      PlainIn(b1, LoadConst(b1, k, Str(key.name)), F);
      DoConst(m, F, b1, k, Str(key.name), s);
      WriteTemp(lay, st, s.regs, k, Str(key.name), b.top);
      n, t := 1, State(|LoadConst(b1, k, Str(key.name)).items|, s.regs[k := Str(key.name)], s.tr);
    }
  }

  lemma {:induction false} InvokeOk(m: Machine, F: Ctx, lay: Layout, b: Ctx, args: Args, cur: nat, recv: Option<nat>,
                                    st: Store, s: State)
    returns (n: nat, t: State)
    requires World(m, F, lay) && WfArgs(lay, args)
    requires In(CompInvoke(b, lay, args, cur, recv).0, F)
    requires At(b, lay, st, s) && lay.localsEnd < cur < b.top
    requires recv.Some? ==> lay.localsEnd < recv.value < b.top
    ensures var (f, r) := CompInvoke(b, lay, args, cur, recv);
            var rv := if recv.Some? then Some(Get(s.regs, recv.value)) else None;
            Computes(m, lay, b, f, r, InvokeEval(m.host, args, Get(s.regs, cur), rv, st, s.tr), s, n, t)
    decreases args, 4
  {
    hide Runs; hide EffectAt; hide WidthAt; hide MoveReg; hide NewTemps; hide Ext; hide EmitCall; hide CompArgs;
    hide EvalArgs; hide Argc; hide Rel; hide Keep;
    var argc := Argc(args);
    var (b1, w) := NewTemps(b, CALL_HEADER_REGS + argc);
    var src := if recv.Some? then recv.value else lay.localsEnd;
    var b2 := MoveReg(b1, w, cur);
    var b3 := MoveReg(b2, w + 1, src);
    var b4 := CompArgs(b3, lay, args, w + 2);
    var f := EmitCall(b4, w, w, argc);
    PlainTemps(b, CALL_HEADER_REGS + argc);
    MoveShape(b1, w, cur); MoveShape(b2, w + 1, src);
    GrowArgs(b3, lay, args, w + 2);
    PlainCall(b4, w, w, argc);
    PlainIn(b4, f, F); ExtIn(b3, b4, {}, F); PlainIn(b2, b3, F); PlainIn(b1, b2, F);
    ExtTop(b3, b4); ExtItems(b3, b4, {});
    // callee and receiver
    DoMove(m, F, b1, w, cur, s);
    var s1 := State(|b2.items|, s.regs[w := Get(s.regs, cur)], s.tr);
    WriteTemp(lay, st, s.regs, w, Get(s.regs, cur), b.top);
    DoMove(m, F, b2, w + 1, src, s1);
    var thisV := Get(s.regs, src);

    var s2 := State(|b3.items|, s1.regs[w + 1 := thisV], s.tr);
    WriteTemp(lay, st, s1.regs, w + 1, thisV, b.top);
    RunsTrans(m, s, 1, s1, 1, s2);
    KeepTrans(lay, s.regs, s1.regs, s2.regs, b.top, b.top);
    // arguments
    var (vs, a) := EvalArgs(m.host, args, st, s.tr);
    var n2, t2 := ArgsOk(m, F, lay, b3, args, w + 2, st, s2);
    RunsTrans(m, s, 2, s2, n2, t2);
    KeepTrans(lay, s.regs, s2.regs, t2.regs, b.top, w + 2);
    KeepGet(lay, s2.regs, t2.regs, w + 2, w);
    KeepGet(lay, s2.regs, t2.regs, w + 2, w + 1);
    n, t := 2 + n2, t2;
    if a.Value? {
      var n3, t3 := CallOk(m, F, lay, b4, w, argc, Get(s.regs, cur), thisV, vs, a.st, t);
      RunsTrans(m, s, n, t, n3, t3);
      KeepTrans(lay, s.regs, t.regs, t3.regs, b.top, w);
      n, t := n + n3, t3;
    }
  }

  lemma CallOk(m: Machine, F: Ctx, lay: Layout, b: Ctx, w: nat, argc: nat, callee: Val, thisV: Val, vs: seq<Val>,
               st: Store, s: State)
    returns (n: nat, t: State)
    requires World(m, F, lay) && In(EmitCall(b, w, w, argc), F)
    requires At(b, lay, st, s) && lay.localsEnd < w < 0x1_0000 && argc < 0x1_0000 && |vs| == argc
    requires Get(s.regs, w) == callee && Get(s.regs, w + 1) == thisV
    requires forall r :: w + 2 <= r < w + 2 + argc ==> Get(s.regs, r) == vs[r - (w + 2)]
    ensures var req := Request(CALL, [argc], [callee, thisV] + vs);
            Computes(m, lay, b.(top := w), EmitCall(b, w, w, argc), w, Ask(m.host, req, st, s.tr), s, n, t)
  {
    hide Runs; hide EffectAt; hide WidthAt; hide EmitCall;
    var req := Request(CALL, [argc], [callee, thisV] + vs);
    forall i | 0 <= i < 2 + argc ensures req.args[i] == Get(s.regs, w + i) {
      if i >= 2 { assert Get(s.regs, w + i) == vs[w + i - (w + 2)]; }
    }
    AtCall(m, F, b, w, argc, s, req);
    n, t := Asked(m, lay, b.(top := w), EmitCall(b, w, w, argc), w, req, st, s);
  }

  // The call instruction, narrow or wide, asks for the window's values.
  lemma AtCall(m: Machine, F: Ctx, b: Ctx, w: nat, argc: nat, s: State, req: Request)
    requires Runs16(m, F) && In(EmitCall(b, w, w, argc), F)
    requires w < 0x1_0000 && argc < 0x1_0000 && s.pc == |b.items|
    requires req.op == CALL && req.imms == [argc] && |req.args| == 2 + argc
    requires forall i :: 0 <= i < 2 + argc ==> req.args[i] == Get(s.regs, w + i)
    ensures EffectAt(m, s) == AskHost(m.host, req, Some(w), s.regs, s.tr)
    ensures s.pc + WidthAt(m, s.pc) == |EmitCall(b, w, w, argc).items| && |b.items| < |EmitCall(b, w, w, argc).items|
  {
    hide AskHost; hide EffectAt; hide WidthAt; hide EncodeRegs; hide Exec; hide NarrowShape; hide OfHiLo;
    assert Reads(s.regs, Window(w, 2 + argc)) == req.args;
    assert req == Request(CALL, [argc], Reads(s.regs, Window(w, 2 + argc)));
    if argc > 255 {
      WordsAt(m, F, b, EncodeCallW(w, w, argc));
      AtCallW(m, w, argc, s);
    } else {
      AtRegs(m, F, b, CALL, w, w, argc, 3, s);
      var l := LogicalOf(CALL, w, w, argc, |EncodeRegs(CALL, w, w, argc, 3)|);
      ExecHost(m, l, s);
      ShapeHost(l);
    }
  }

  // Arguments go to consecutive registers from slot on; nothing else below top changes.
  ghost predicate ArgsTo(m: Machine, lay: Layout, b: Ctx, f: Ctx, slot: nat, argc: nat, vs: seq<Val>, a: ERes, s: State,
                         n: nat, t: State) {
    && Runs(m, s, n, t) && Keep(lay, s.regs, t.regs, slot) && Rel(lay, a.st, t.regs)
    && (a.Value? ==>
          && t.pc == |f.items| && t.tr == a.tr && |vs| == argc
          && (forall r :: slot <= r < slot + argc ==> Get(t.regs, r) == vs[r - slot]))
    && (a.Thrown? ==> |b.items| <= t.pc < |f.items| && EffectAt(m, t) == Raise(a.v, a.tr))
  }

  lemma {:induction false} ArgsOk(m: Machine, F: Ctx, lay: Layout, b: Ctx, args: Args, slot: nat, st: Store, s: State)
    returns (n: nat, t: State)
    requires World(m, F, lay) && WfArgs(lay, args)
    requires In(CompArgs(b, lay, args, slot), F)
    requires At(b, lay, st, s) && lay.localsEnd < slot && slot + Argc(args) <= b.top
    ensures var (vs, a) := EvalArgs(m.host, args, st, s.tr);
            ArgsTo(m, lay, b, CompArgs(b, lay, args, slot), slot, Argc(args), vs, a, s, n, t)
    decreases args, 0
  {
    hide Runs; hide EffectAt; hide MoveReg; hide Ext; hide CompExpr; hide Eval;
    RunsNone(m, s);
    n, t := 0, s;
    if args.NoArgs? { return; }
    var (b1, r) := CompExpr(b, lay, args.e);
    var b2 := if r != slot then MoveReg(b1, slot, r) else b1;
    var f := CompArgs(b2, lay, args.rest, slot + 1);
    GrowExpr(b, lay, args.e);
    MoveShape(b1, slot, r);
    ExtTop(b, b1); ExtItems(b, b1, {});
    GrowArgs(b2, lay, args.rest, slot + 1);
    ExtTop(b2, f); ExtItems(b2, f, {});
    ExtIn(b2, f, {}, F);
    PlainIn(b1, b2, F);
    var ev := Eval(m.host, args.e, st, s.tr);
    n, t := ExprOk(m, F, lay, b, args.e, st, s);
    if ev.Value? {
      DoMove(m, F, b1, slot, r, t);
      WriteTemp(lay, ev.st, t.regs, slot, ev.v, slot);
      var t1 := State(|b2.items|, t.regs[slot := ev.v], t.tr);
      RunsTrans(m, s, n, t, 1, t1);
      var n2, t2 := ArgsOk(m, F, lay, b2, args.rest, slot + 1, ev.st, t1);
      var (vs, a) := EvalArgs(m.host, args.rest, ev.st, ev.tr);
      ArgsJoin(m, lay, b, b2, f, slot, Argc(args.rest), ev.v, vs, a, s, n + 1, t1, n2, t2);
      n, t := n + 1 + n2, t2;
    }
  }

  lemma ArgsJoin(m: Machine, lay: Layout, b: Ctx, b2: Ctx, f: Ctx, slot: nat, argc: nat, v: Val, vs: seq<Val>, a: ERes,
                 s: State, n1: nat, t1: State, n2: nat, t2: State)
    requires Runs(m, s, n1, t1) && Keep(lay, s.regs, t1.regs, slot) && Get(t1.regs, slot) == v && lay.localsEnd < slot
    requires ArgsTo(m, lay, b2, f, slot + 1, argc, vs, a, t1, n2, t2) && |b.items| <= |b2.items|
    ensures ArgsTo(m, lay, b, f, slot, argc + 1, [v] + vs, a, s, n1 + n2, t2)
  {
    hide Runs; hide EffectAt;
    RunsTrans(m, s, n1, t1, n2, t2);
  }

  lemma AtCallW(m: Machine, w: nat, argc: nat, s: State)
    requires w < 0x1_0000 && argc < 0x1_0000 && s.pc + 3 <= |m.code.instrs|
    requires forall i :: 0 <= i < 3 ==> m.code.instrs[s.pc + i] == EncodeCallW(w, w, argc)[i]
    ensures EffectAt(m, s) ==
            AskHost(m.host, Request(CALL, [argc], Reads(s.regs, Window(w, 2 + argc))), Some(w), s.regs, s.tr)
    ensures WidthAt(m, s.pc) == 3
  {
    DecodeCallW(m.code.instrs, s.pc, w, argc);
    var l := Decode(m.code.instrs, s.pc).value;
  }

  lemma DecodeCallW(code: seq<Instr>, pc: nat, w: nat, argc: nat)
    requires w < 0x1_0000 && argc < 0x1_0000 && pc + 3 <= |code|
    requires forall i :: 0 <= i < 3 ==> code[pc + i] == EncodeCallW(w, w, argc)[i]
    ensures Decode(code, pc) ==
            Some(Logical(WIDE, 0, 0, 0, 3, Instr(WIDE, 0, 0, CALL_W), [OfHiLo(w, w), OfHiLo(0, argc)]))
  {
    hide OfHiLo; hide Instr.Hi; hide Instr.Lo;
    assert w % 0x1_0000 == w && argc % 0x1_0000 == argc;
    var ws := EncodeCallW(w, w, argc);
    assert code[pc + 0] == ws[0] && code[pc + 1] == ws[1] && code[pc + 2] == ws[2];
    assert code[pc + 1..pc + 3] == [ws[1], ws[2]];
  }
}
