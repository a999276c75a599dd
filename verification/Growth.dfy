/**
 What emission never undoes.  Lowering a construct only appends words, pools
 constants, raises the temporary counter and registers handlers inside its own
 region, and every label it allocates is bound, once, inside that region.
 */
module Growth {
  import opened Words
  import opened Machine
  import opened Assembly
  import opened Source
  import opened Lowering

  // A step that appends words and nothing else that a reader of the code could see.
  ghost predicate Plain(b: Ctx, f: Ctx) {
    && (b.failed ==> f.failed)
    && b.items <= f.items && b.consts <= f.consts
    && f.labels == b.labels && f.handlers == b.handlers
    && b.top <= f.top && b.high <= f.high && Within(b, f)
  }

  // The bounds emission respects: temporaries lie below the high-water mark, the
  // mark within the register limit, and the pool within its own.
  ghost predicate Within(b: Ctx, f: Ctx) {
    && (b.top <= b.high <= MAX_REGS ==> f.top <= f.high <= MAX_REGS)
    && (|b.consts| <= MAX_CONSTANTS ==> |f.consts| <= MAX_CONSTANTS)
  }

  // f is reached from b by emission that touches no earlier label outside `open`
  // and leaves no new label outside `open` unbound.
  ghost predicate Ext(b: Ctx, f: Ctx, open: set<nat>) {
    && (b.failed ==> f.failed)
    && (!f.failed ==>
          && b.items <= f.items && b.consts <= f.consts && b.handlers <= f.handlers
          && b.top <= f.top && b.high <= f.high && Within(b, f)
          && |b.labels| <= |f.labels|
          && (forall l :: 0 <= l < |b.labels| && (l !in open || b.labels[l].Some?) ==> f.labels[l] == b.labels[l])
          && (forall l :: 0 <= l < |f.labels| && f.labels[l].Some? && (l >= |b.labels| || b.labels[l].None?) ==>
                |b.items| <= f.labels[l].value <= |f.items|)
          && (forall l :: |b.labels| <= l < |f.labels| && l !in open ==> f.labels[l].Some?)
          && (forall j :: |b.handlers| <= j < |f.handlers| ==>
                |b.items| <= f.handlers[j].start <= |f.items| && f.handlers[j].end <= |f.items|
                && f.handlers[j].target <= |f.items|))
  }

  lemma ExtPlain(b: Ctx, f: Ctx, open: set<nat>)
    requires Plain(b, f)
    ensures Ext(b, f, open)
  {
  }

  lemma ExtTrans(a: Ctx, b: Ctx, c: Ctx, open: set<nat>)
    requires Ext(a, b, open) && Ext(b, c, open)
    ensures Ext(a, c, open)
  {
    if !c.failed {
      forall j | |a.handlers| <= j < |c.handlers|
        ensures |a.items| <= c.handlers[j].start <= |c.items| && c.handlers[j].end <= |c.items|
                && c.handlers[j].target <= |c.items|
      {
        if j < |b.handlers| {
          assert c.handlers[j] == b.handlers[j];
        }
      }
      forall l | 0 <= l < |c.labels| && c.labels[l].Some? && (l >= |a.labels| || a.labels[l].None?)
        ensures |a.items| <= c.labels[l].value <= |c.items|
      {
        if l < |b.labels| && b.labels[l].Some? {
          assert c.labels[l] == b.labels[l];
        }
      }
      forall l | |a.labels| <= l < |c.labels| && l !in open
        ensures c.labels[l].Some?
      {
        if l < |b.labels| {
          assert b.labels[l].Some?;
        }
      }
    }
  }

  lemma ExtWeaken(b: Ctx, f: Ctx, small: set<nat>, big: set<nat>)
    requires Ext(b, f, small) && small <= big
    ensures Ext(b, f, big)
  {
  }

  // Once the labels a construct allocated are bound, it is closed.
  lemma ExtClose(b: Ctx, f: Ctx, open: set<nat>)
    requires Ext(b, f, open)
    requires !f.failed ==>
               forall l :: l in open ==> |b.labels| <= l && (l < |f.labels| ==> f.labels[l].Some?)
    ensures Ext(b, f, {})
  {
  }

  // ---- primitive emissions ----------------------------------------------

  lemma PlainTrans(a: Ctx, b: Ctx, c: Ctx)
    requires Plain(a, b) && Plain(b, c)
    ensures Plain(a, c)
  {
  }

  lemma PlainTemps(b: Ctx, n: nat)
    ensures Plain(b, NewTemps(b, n).0)
    ensures var (f, r) := NewTemps(b, n);
            !f.failed ==>
              r == b.top && f.top == b.top + n && f.top <= MAX_REGS && f.items == b.items && f.consts == b.consts
  {
  }

  lemma PlainWords(b: Ctx, ws: seq<Instr>)
    ensures Plain(b, EmitWords(b, ws))
  {
  }

  lemma PlainJump(b: Ctx, op: Opcode, reg: nat, l: nat)
    ensures Plain(b, EmitJump(b, op, reg, l))
  {
  }

  lemma PlainConst(b: Ctx, dst: nat, v: Val)
    ensures Plain(b, LoadConst(b, dst, v))
  {
    hide EncodeRegs;
  }

  lemma PlainBool(b: Ctx, dst: nat, v: bool)
    ensures Plain(b, LoadBool(b, dst, v))
  {
    hide EncodeRegs; hide EncodeIntW;
    PlainTemps(b, 1);
  }

  lemma PlainValue(b: Ctx, lay: Layout, dst: nat, v: Val)
    ensures Plain(b, LoadValue(b, lay, dst, v))
  {
    hide EncodeRegs; hide EncodeIntW; hide LoadBool; hide LoadConst;
    PlainBool(b, dst, v.Bool? && v.b);
    PlainConst(b, dst, v);
  }

  lemma PlainNullish(b: Ctx, v: nat)
    ensures Plain(b, CompNullish(b, v).0)
  {
    hide EncodeRegs; hide LoadConst;
    var (b1, n) := NewTemp(b);
    PlainTemps(b, 1);
    PlainConst(b1, n, Null);
    PlainTemps(LoadConst(b1, n, Null), 1);
  }

  lemma PlainClose(b: Ctx, it: (nat, nat))
    ensures Plain(b, CloseOne(b, it))
  {
    hide EncodeRegs; hide LoadBool;
    PlainBool(b, it.1, true);
  }

  lemma {:induction false} PlainCloses(b: Ctx, ls: seq<LoopCtx>)
    ensures Plain(b, EmitCloses(b, ls))
    decreases |ls|
  {
    hide CloseOne;
    if ls != [] {
      var lc := ls[|ls| - 1];
      var b1 := if lc.iter.Some? then CloseOne(b, lc.iter.value) else b;
      if lc.iter.Some? {
        PlainClose(b, lc.iter.value);
      }
      PlainCloses(b1, ls[..|ls| - 1]);
      PlainTrans(b, b1, EmitCloses(b1, ls[..|ls| - 1]));
    }
  }

  // Extending a chain of emissions by one more step.
  lemma ThenPlain(a: Ctx, b: Ctx, c: Ctx, open: set<nat>)
    requires Ext(a, b, open) && Plain(b, c)
    ensures Ext(a, c, open)
  {
    ExtPlain(b, c, open);
    ExtTrans(a, b, c, open);
  }

  lemma ThenExt(a: Ctx, b: Ctx, c: Ctx, open: set<nat>)
    requires Ext(a, b, open) && Ext(b, c, {})
    ensures Ext(a, c, open)
  {
    ExtWeaken(b, c, {}, open);
    ExtTrans(a, b, c, open);
  }

  lemma ThenLabel(a: Ctx, b: Ctx, open: set<nat>)
    requires Ext(a, b, open) && |b.labels| in open
    ensures Ext(a, NewLabel(b).0, open)
  {
    ExtTrans(a, b, NewLabel(b).0, open);
  }

  lemma ThenBind(a: Ctx, b: Ctx, l: nat, open: set<nat>)
    requires Ext(a, b, open) && l in open
    ensures Ext(a, Bind(b, l), open)
    ensures !Bind(b, l).failed ==>
              !b.failed && l < |b.labels| && Bind(b, l).labels == b.labels[l := Some(|b.items|)]
  {
    ExtTrans(a, b, Bind(b, l), open);
  }

  lemma ThenMove(a: Ctx, b: Ctx, dst: nat, src: nat, open: set<nat>)
    requires Ext(a, b, open)
    ensures Ext(a, MoveReg(b, dst, src), open)
  {
    PlainWords(b, EncodeRegs(MOVE, dst, src, 0, 3));
    ThenPlain(a, b, MoveReg(b, dst, src), open);
  }

  lemma ThenJump(a: Ctx, b: Ctx, op: Opcode, reg: nat, l: nat, open: set<nat>)
    requires Ext(a, b, open)
    ensures Ext(a, EmitJump(b, op, reg, l), open)
  {
    PlainJump(b, op, reg, l);
    ThenPlain(a, b, EmitJump(b, op, reg, l), open);
  }

  lemma ThenRegs(a: Ctx, b: Ctx, op: Opcode, x: nat, y: nat, z: nat, mask: Byte, open: set<nat>)
    requires Ext(a, b, open)
    ensures Ext(a, EmitRegs(b, op, x, y, z, mask), open)
  {
    PlainWords(b, EncodeRegs(op, x, y, z, mask));
    ThenPlain(a, b, EmitRegs(b, op, x, y, z, mask), open);
  }

  lemma ThenTemps(a: Ctx, b: Ctx, n: nat, open: set<nat>)
    requires Ext(a, b, open)
    ensures Ext(a, NewTemps(b, n).0, open)
  {
    PlainTemps(b, n);
    ThenPlain(a, b, NewTemps(b, n).0, open);
  }

  lemma ExtRefl(b: Ctx, open: set<nat>)
    ensures Ext(b, b, open)
  {
  }

  // ---- expressions ------------------------------------------------------

  // Lowering an expression is closed emission without handlers, and the value
  // ends up in a temporary allocated by the expression itself.
  ghost predicate GrowsTo(b: Ctx, f: Ctx, r: nat) {
    && Ext(b, f, {})
    && (!f.failed ==> f.handlers == b.handlers && b.top <= r < f.top)
  }

  lemma {:induction false} GrowExpr(b: Ctx, lay: Layout, e: Expr)
    ensures GrowsTo(b, CompExpr(b, lay, e).0, CompExpr(b, lay, e).1)
    decreases e, 1
  {
    hide EmitRegs; hide EmitJump; hide LoadValue; hide NewTemps; hide Bind; hide NewLabel; hide MoveReg; hide Ext;
    match e
    case Lit(v) =>
      var (b1, dst) := NewTemp(b);
      PlainTemps(b, 1);
      PlainValue(b1, lay, dst, v);
      PlainTrans(b, b1, LoadValue(b1, lay, dst, v));
      ExtPlain(b, LoadValue(b1, lay, dst, v), {});
    case Local(x) =>
      var (b1, dst) := NewTemp(b);
      PlainTemps(b, 1);
      ExtPlain(b, b1, {});
      ThenMove(b, b1, dst, RegOf(lay, x), {});
      MoveShape(b1, dst, RegOf(lay, x));
    case Unary(op, e1) =>
      GrowExpr(b, lay, e1);
      var (b1, v) := CompExpr(b, lay, e1);
      GrowOp(b, b1, op, v, 0, 3);
    case Binary(op, x, y) =>
      GrowExpr(b, lay, x);
      var (b1, l) := CompExpr(b, lay, x);
      GrowExpr(b1, lay, y);
      var (b2, r) := CompExpr(b1, lay, y);
      ThenExt(b, b1, b2, {});
      ExtTop(b, b1); ExtTop(b1, b2);
      GrowOp(b, b2, op, l, r, 7);
    case ShortCircuit(_, _, _) => GrowLogic(b, lay, e);
    case Cond(_, _, _) => GrowCond(b, lay, e);
    case Comma(x, y) =>
      GrowExpr(b, lay, x);
      var b1 := CompExpr(b, lay, x).0;
      GrowExpr(b1, lay, y);
      ThenExt(b, b1, CompExpr(b1, lay, y).0, {});
      ExtTop(b, b1); ExtTop(b1, CompExpr(b1, lay, y).0);
    case Assign(x, e1) =>
      GrowExpr(b, lay, e1);
      var (b1, r) := CompExpr(b, lay, e1);
      ThenMove(b, b1, RegOf(lay, x), r, {});
      MoveShape(b1, RegOf(lay, x), r);
    case Chain(_, _) => GrowChain(b, lay, e);
  }

  lemma MoveShape(b: Ctx, dst: nat, src: nat)
    ensures Plain(b, MoveReg(b, dst, src)) && MoveReg(b, dst, src).top == b.top
    ensures MoveReg(b, dst, src).failed == b.failed
  {
    PlainWords(b, EncodeRegs(MOVE, dst, src, 0, 3));
  }

  lemma ExtTop(b: Ctx, f: Ctx)
    requires Ext(b, f, {})
    ensures b.failed ==> f.failed
    ensures !f.failed ==> b.top <= f.top && |b.labels| <= |f.labels| && b.labels <= f.labels
  {
  }

  // A fresh destination and one instruction into it.
  lemma GrowOp(b: Ctx, b1: Ctx, op: Opcode, x: nat, y: nat, mask: Byte)
    requires Ext(b, b1, {})
    requires !b1.failed ==> b1.handlers == b.handlers
    ensures var (b2, dst) := NewTemp(b1); GrowsTo(b, EmitRegs(b2, op, dst, x, y, mask), dst)
  {
    var (b2, dst) := NewTemp(b1);
    PlainTemps(b1, 1);
    ThenTemps(b, b1, 1, {});
    ThenRegs(b, b2, op, dst, x, y, mask, {});
    PlainWords(b2, EncodeRegs(op, dst, x, y, mask));
  }

  lemma {:induction false} GrowLogic(b: Ctx, lay: Layout, e: Expr)
    requires e.ShortCircuit?
    ensures GrowsTo(b, CompExpr(b, lay, e).0, CompExpr(b, lay, e).1)
    decreases e, 0
  {
    hide MoveReg; hide Ext; hide CompGuard;
    GrowExpr(b, lay, e.l);
    var (b1, dst) := CompExpr(b, lay, e.l);
    var (b2, end) := NewLabel(b1);
    var open := {end};
    ExtWeaken(b, b1, {}, open);
    ExtTop(b, b1);
    ThenLabel(b, b1, open);
    var b3 := CompGuard(b2, e.lop, dst, end);
    PlainGuard(b2, e.lop, dst, end);
    ThenPlain(b, b2, b3, open);
    GrowExpr(b3, lay, e.r);
    var (b4, r) := CompExpr(b3, lay, e.r);
    ThenExt(b, b3, b4, open);
    ThenMove(b, b4, dst, r, open);
    MoveShape(b4, dst, r);
    var b5 := MoveReg(b4, dst, r);
    ThenBind(b, b5, end, open);
    ExtTop(b3, b4);
    ExtClose(b, Bind(b5, end), open);
  }

  lemma PlainGuard(b: Ctx, lop: Logic, dst: nat, end: nat)
    ensures Plain(b, CompGuard(b, lop, dst, end))
  {
    hide CompNullish; hide EmitJump;
    if lop.Coalesce? {
      var (b1, t) := CompNullish(b, dst);
      PlainNullish(b, dst);
      PlainJump(b1, JUMP_IF_FALSE, t, end);
    } else {
      PlainJump(b, JUMP_IF_TRUE, dst, end);
      PlainJump(b, JUMP_IF_FALSE, dst, end);
    }
  }

  lemma {:induction false} GrowCond(b: Ctx, lay: Layout, e: Expr)
    requires e.Cond?
    ensures GrowsTo(b, CompExpr(b, lay, e).0, CompExpr(b, lay, e).1)
    decreases e, 0
  {
    hide MoveReg; hide Ext; hide EmitJump; hide NewTemps;
    GrowExpr(b, lay, e.test);
    var (b1, c) := CompExpr(b, lay, e.test);
    var (b2, dst) := NewTemp(b1);
    var (b3, elseL) := NewLabel(b2);
    var (b4, endL) := NewLabel(b3);
    var open := {elseL, endL};
    ExtTop(b, b1);
    PlainTemps(b1, 1);
    ExtWeaken(b, b1, {}, open);
    ThenTemps(b, b1, 1, open);
    ThenLabel(b, b2, open);
    ThenLabel(b, b3, open);
    var b5 := EmitJump(b4, JUMP_IF_FALSE, c, elseL);
    ThenJump(b, b4, JUMP_IF_FALSE, c, elseL, open);
    PlainJump(b4, JUMP_IF_FALSE, c, elseL);
    GrowExpr(b5, lay, e.thn);
    var (b6, x) := CompExpr(b5, lay, e.thn);
    ThenExt(b, b5, b6, open);
    ExtTop(b5, b6);
    ThenMove(b, b6, dst, x, open);
    MoveShape(b6, dst, x);
    var b7 := MoveReg(b6, dst, x);
    var b8 := EmitGoto(b7, endL);
    ThenJump(b, b7, JUMP, 0, endL, open);
    PlainJump(b7, JUMP, 0, endL);
    var b9 := Bind(b8, elseL);
    ThenBind(b, b8, elseL, open);
    GrowExpr(b9, lay, e.els);
    var (b10, y) := CompExpr(b9, lay, e.els);
    ThenExt(b, b9, b10, open);
    ExtTop(b9, b10);
    ThenMove(b, b10, dst, y, open);
    MoveShape(b10, dst, y);
    var b11 := MoveReg(b10, dst, y);
    ThenBind(b, b11, endL, open);
    ExtClose(b, Bind(b11, endL), open);
  }

  lemma {:induction false} GrowChain(b: Ctx, lay: Layout, e: Expr)
    requires e.Chain?
    ensures GrowsTo(b, CompExpr(b, lay, e).0, CompExpr(b, lay, e).1)
    decreases e, 0
  {
    hide MoveReg; hide Ext; hide NewTemps;
    var (b1, exit) := NewLabel(b);
    var open := {exit};
    ExtRefl(b, open);
    ThenLabel(b, b, open);
    var (b2, dst) := NewTemp(b1);
    PlainTemps(b1, 1);
    ThenTemps(b, b1, 1, open);
    GrowExpr(b2, lay, e.base);
    var (b3, cur) := CompExpr(b2, lay, e.base);
    ThenExt(b, b2, b3, open);
    ExtTop(b2, b3);
    GrowLinks(b3, lay, e.links, dst, exit, cur, None);
    var (b4, last) := CompLinks(b3, lay, e.links, dst, exit, cur, None);
    ThenExt(b, b3, b4, open);
    ExtTop(b3, b4);
    ThenMove(b, b4, dst, last, open);
    MoveShape(b4, dst, last);
    var b5 := MoveReg(b4, dst, last);
    ThenBind(b, b5, exit, open);
    ExtClose(b, Bind(b5, exit), open);
  }

  lemma GrowExit(b: Ctx, lay: Layout, v: nat, dst: nat, exit: nat)
    ensures var f := CompExit(b, lay, v, dst, exit);
            Ext(b, f, {}) && (!f.failed ==> f.handlers == b.handlers)
  {
    hide MoveReg; hide Ext; hide EmitJump; hide CompNullish;
    var (b1, t) := CompNullish(b, v);
    var (b2, keep) := NewLabel(b1);
    var open := {keep};
    PlainNullish(b, v);
    ExtPlain(b, b1, open);
    ThenLabel(b, b1, open);
    var b3 := EmitJump(b2, JUMP_IF_FALSE, t, keep);
    PlainJump(b2, JUMP_IF_FALSE, t, keep);
    ThenPlain(b, b2, b3, open);
    var b4 := LoadUndefined(b3, lay, dst);
    MoveShape(b3, dst, lay.localsEnd);
    ThenPlain(b, b3, b4, open);
    var b5 := EmitGoto(b4, exit);
    PlainJump(b4, JUMP, 0, exit);
    ThenPlain(b, b4, b5, open);
    ThenBind(b, b5, keep, open);
    ExtClose(b, Bind(b5, keep), open);
  }

  lemma {:induction false} GrowLinks(b: Ctx, lay: Layout, links: Links, dst: nat, exit: nat, cur: nat,
                                     recv: Option<nat>)
    ensures var (f, r) := CompLinks(b, lay, links, dst, exit, cur, recv);
            Ext(b, f, {}) && (!f.failed ==> f.handlers == b.handlers && (r == cur || b.top <= r < f.top))
    decreases links, 0
  {
    hide Ext; hide CompExit; hide CompMember; hide CompInvoke;
    if links.End? {
      ExtRefl(b, {});
    } else {
      var b1 := if links.optional then CompExit(b, lay, cur, dst, exit) else b;
      ExtRefl(b, {});
      GrowExit(b, lay, cur, dst, exit);
      ExtTop(b, b1);
      var (b2, nxt) := if links.Member? then CompMember(b1, lay, links.key, cur)
                       else CompInvoke(b1, lay, links.args, cur, recv);
      var recv' := if links.Member? then Some(cur) else None;
      if links.Member? {
        GrowMember(b1, lay, links.key, cur);
      } else {
        GrowInvoke(b1, lay, links.args, cur, recv);
      }
      ThenExt(b, b1, b2, {});
      ExtTop(b1, b2);
      var f := CompLinks(b2, lay, links.rest, dst, exit, nxt, recv').0;
      GrowLinks(b2, lay, links.rest, dst, exit, nxt, recv');
      ThenExt(b, b2, f, {});
      ExtTop(b2, f);
    }
  }

  lemma {:induction false} GrowMember(b: Ctx, lay: Layout, key: Key, cur: nat)
    ensures GrowsTo(b, CompMember(b, lay, key, cur).0, CompMember(b, lay, key, cur).1)
    decreases key, 4
  {
    hide EmitRegs; hide Ext;
    GrowKey(b, lay, key);
    var (b1, k) := CompKey(b, lay, key);
    GrowOp(b, b1, GET_PROPERTY, cur, k, 7);
  }

  lemma {:induction false} GrowInvoke(b: Ctx, lay: Layout, args: Args, cur: nat, recv: Option<nat>)
    ensures GrowsTo(b, CompInvoke(b, lay, args, cur, recv).0, CompInvoke(b, lay, args, cur, recv).1)
    decreases args, 4
  {
    hide MoveReg; hide Ext; hide NewTemps; hide EmitCall; hide CompArgs; hide Argc;
    var argc := Argc(args);
    var (b1, w) := NewTemps(b, CALL_HEADER_REGS + argc);
    PlainTemps(b, CALL_HEADER_REGS + argc);
    ExtPlain(b, b1, {});
    var b2 := MoveReg(b1, w, cur);
    MoveShape(b1, w, cur);
    ThenPlain(b, b1, b2, {});
    var src := if recv.Some? then recv.value else lay.localsEnd;
    var b3 := MoveReg(b2, w + 1, src);
    MoveShape(b2, w + 1, src);
    ThenPlain(b, b2, b3, {});
    GrowArgs(b3, lay, args, w + 2);
    var b4 := CompArgs(b3, lay, args, w + 2);
    ThenExt(b, b3, b4, {});
    ExtTop(b3, b4);
    PlainCall(b4, w, w, argc);
    ThenPlain(b, b4, EmitCall(b4, w, w, argc), {});
  }

  lemma PlainCall(b: Ctx, dst: nat, callee: nat, argc: nat)
    ensures Plain(b, EmitCall(b, dst, callee, argc)) && EmitCall(b, dst, callee, argc).top == b.top
    ensures EmitCall(b, dst, callee, argc).failed == b.failed
  {
    hide EncodeRegs; hide EncodeCallW;
  }

  lemma {:induction false} GrowKey(b: Ctx, lay: Layout, key: Key)
    ensures GrowsTo(b, CompKey(b, lay, key).0, CompKey(b, lay, key).1)
    decreases key, 2
  {
    hide LoadConst;
    match key
    case Static(name) =>
      var (b1, r) := NewTemp(b);
      PlainTemps(b, 1);
      PlainConst(b1, r, Str(name));
      PlainTrans(b, b1, LoadConst(b1, r, Str(name)));
      ExtPlain(b, LoadConst(b1, r, Str(name)), {});
    case Computed(e) => GrowExpr(b, lay, e);
  }

  lemma {:induction false} GrowArgs(b: Ctx, lay: Layout, args: Args, slot: nat)
    ensures var f := CompArgs(b, lay, args, slot);
            Ext(b, f, {}) && (!f.failed ==> f.handlers == b.handlers)
    decreases args, 0
  {
    hide MoveReg; hide Ext;
    match args
    case NoArgs => ExtRefl(b, {});
    case Arg(e, rest) =>
      GrowExpr(b, lay, e);
      var (b1, r) := CompExpr(b, lay, e);
      var b2 := if r != slot then MoveReg(b1, slot, r) else b1;
      ThenMove(b, b1, slot, r, {});
      MoveShape(b1, slot, r);
      GrowArgs(b2, lay, rest, slot + 1);
      ThenExt(b, b2, CompArgs(b2, lay, rest, slot + 1), {});
      ExtTop(b2, CompArgs(b2, lay, rest, slot + 1));
  }

  // ---- statements -------------------------------------------------------

  lemma ThenWords(a: Ctx, b: Ctx, ws: seq<Instr>, open: set<nat>)
    requires Ext(a, b, open)
    ensures Ext(a, EmitWords(b, ws), open)
  {
    PlainWords(b, ws);
    ThenPlain(a, b, EmitWords(b, ws), open);
  }

  lemma ExtLoopStart(b: Ctx, open: set<nat>)
    requires {|b.labels|, |b.labels| + 1, |b.labels| + 2} <= open
    ensures var (f, top, cont, end) := LoopStart(b);
            && Ext(b, f, open)
            && top == |b.labels| && cont == top + 1 && end == top + 2
            && (!f.failed ==>
                  && f.labels == b.labels + [Some(|b.items|), None, None]
                  && f.handlers == b.handlers && f.top == b.top && f.consts == b.consts
                  && f.items == b.items + [Raw(Instr(LOOP_HEADER, 0, 0, 0))])
  {
    hide Ext;
    var (b1, top) := NewLabel(b);
    var (b2, cont) := NewLabel(b1);
    var (b3, end) := NewLabel(b2);
    ExtRefl(b, open);
    ThenLabel(b, b, open);
    ThenLabel(b, b1, open);
    ThenLabel(b, b2, open);
    ThenBind(b, b3, top, open);
    ThenWords(b, Bind(b3, top), [Instr(LOOP_HEADER, 0, 0, 0)], open);
  }

  lemma {:induction false} GrowStmt(b: Ctx, lay: Layout, loops: seq<LoopCtx>, s: Stmt)
    ensures Ext(b, CompStmt(b, lay, loops, s), {})
    decreases s, 2
  {
    hide EmitRegs; hide Ext; hide CompExpr; hide EmitCloses; hide CompReturnValue; hide CompJumpOut; hide CompForLoop;
    hide CompOpt;
    match s
    case Empty => ExtRefl(b, {});
    case ExprStmt(e) => GrowExpr(b, lay, e);
    case Block(body) => GrowStmts(b, lay, loops, body);
    case If(_, _, _) => GrowIf(b, lay, loops, s);
    case While(name, t, _) => GrowForLoop(b, lay, loops, name, Some(t), None, s);
    case DoWhile(_, _, _) => GrowDoWhile(b, lay, loops, s);
    case For(name, init, test, update, _) =>
      GrowOpt(b, lay, init);
      var b0 := CompOpt(b, lay, init);
      GrowForLoop(b0, lay, loops, name, test, update, s);
      ThenExt(b, b0, CompForLoop(b0, lay, loops, name, test, update, s), {});
    case ForOf(_, _, _, _) => GrowForOf(b, lay, loops, s);
    case Labeled(lab, body) =>
      assert Ext(b, CompStmt(b, lay, loops, s), {}) by {
        var (b1, end) := NewLabel(b);
        var open := {end};
        ExtRefl(b, open);
        ThenLabel(b, b, open);
        var loops1 := loops + [LoopCtx(end, None, Some(s.lab), None)];
        GrowStmt(b1, lay, loops1, s.body1);
        var b2 := CompStmt(b1, lay, loops1, s.body1);
        ThenExt(b, b1, b2, open);
        ThenBind(b, b2, end, open);
        ExtClose(b, Bind(b2, end), open);
      }
    case Switch(_, _, _) => GrowSwitch(b, lay, loops, s);
    case Break(l) => GrowJumpOut(b, loops, l, false);
    case Continue(l) => GrowJumpOut(b, loops, l, true);
    case Return(arg) =>
      var (b1, v) := CompReturnValue(b, lay, arg);
      GrowReturnValue(b, lay, arg);
      var b2 := EmitCloses(b1, loops);
      PlainCloses(b1, loops);
      ThenPlain(b, b1, b2, {});
      ThenRegs(b, b2, RETURN, v, 0, 0, 7, {});
    case Throw(e) =>
      GrowExpr(b, lay, e);
      var (b1, v) := CompExpr(b, lay, e);
      ThenRegs(b, b1, THROW, v, 0, 0, 7, {});
  }

  lemma GrowReturnValue(b: Ctx, lay: Layout, arg: Option<Expr>)
    ensures GrowsTo(b, CompReturnValue(b, lay, arg).0, CompReturnValue(b, lay, arg).1)
  {
    hide MoveReg; hide Ext;
    if arg.Some? {
      GrowExpr(b, lay, arg.value);
    } else {
      var (b1, v) := NewTemp(b);
      PlainTemps(b, 1);
      ExtPlain(b, b1, {});
      ThenMove(b, b1, v, lay.localsEnd, {});
      MoveShape(b1, v, lay.localsEnd);
    }
  }

  lemma GrowJumpOut(b: Ctx, loops: seq<LoopCtx>, want: Option<Source.Label>, isCont: bool)
    ensures Ext(b, CompJumpOut(b, loops, want, isCont), {})
  {
    hide EmitCloses; hide EmitJump;
    var p := RPosition(loops, want, isCont);
    if !(p.None? || (isCont && loops[p.value].cont.None?)) {
      var from := if isCont then p.value + 1 else p.value;
      var l := if isCont then loops[p.value].cont.value else loops[p.value].brk;
      PlainCloses(b, loops[from..]);
      PlainJump(EmitCloses(b, loops[from..]), JUMP, 0, l);
    }
  }

  lemma {:induction false} GrowStmts(b: Ctx, lay: Layout, loops: seq<LoopCtx>, ss: Stmts)
    ensures Ext(b, CompStmts(b, lay, loops, ss), {})
    decreases ss, 0
  {
    hide Ext; hide CompStmt;
    match ss
    case Nil => ExtRefl(b, {});
    case Cons(s, rest) =>
      var b1 := CompStmt(b, lay, loops, s);
      GrowStmt(b, lay, loops, s);
      GrowStmts(b1, lay, loops, rest);
      ThenExt(b, b1, CompStmts(b1, lay, loops, rest), {});
  }

  lemma {:induction false} GrowIf(b: Ctx, lay: Layout, loops: seq<LoopCtx>, s: Stmt)
    requires s.If?
    ensures Ext(b, CompStmt(b, lay, loops, s), {})
    decreases s, 1
  {
    hide Ext; hide CompExpr; hide EmitJump;
    GrowExpr(b, lay, s.test);
    var (b1, c) := CompExpr(b, lay, s.test);
    var (b2, elseL) := NewLabel(b1);
    var (b3, endL) := NewLabel(b2);
    var open := {elseL, endL};
    ExtTop(b, b1);
    ExtWeaken(b, b1, {}, open);
    ThenLabel(b, b1, open);
    ThenLabel(b, b2, open);
    var b4 := EmitJump(b3, JUMP_IF_FALSE, c, elseL);
    ThenJump(b, b3, JUMP_IF_FALSE, c, elseL, open);
    PlainJump(b3, JUMP_IF_FALSE, c, elseL);
    GrowStmt(b4, lay, loops, s.thn);
    var b5 := CompStmt(b4, lay, loops, s.thn);
    ThenExt(b, b4, b5, open);
    ExtTop(b4, b5);
    var b6 := EmitGoto(b5, endL);
    ThenJump(b, b5, JUMP, 0, endL, open);
    PlainJump(b5, JUMP, 0, endL);
    var b7 := Bind(b6, elseL);
    ThenBind(b, b6, elseL, open);
    GrowStmt(b7, lay, loops, s.els);
    var b8 := CompStmt(b7, lay, loops, s.els);
    ThenExt(b, b7, b8, open);
    ExtTop(b7, b8);
    ThenBind(b, b8, endL, open);
    ExtClose(b, Bind(b8, endL), open);
  }

  lemma {:induction false} GrowDoWhile(b: Ctx, lay: Layout, loops: seq<LoopCtx>, s: Stmt)
    requires s.DoWhile?
    ensures Ext(b, CompStmt(b, lay, loops, s), {})
    decreases s, 1
  {
    hide Ext; hide CompExpr; hide EmitJump; hide LoopStart;
    var (b1, top, cont, end) := LoopStart(b);
    var open := {|b.labels|, |b.labels| + 1, |b.labels| + 2};
    ExtLoopStart(b, open);
    var loops1 := loops + [LoopCtx(end, Some(cont), s.name, None)];
    GrowStmt(b1, lay, loops1, s.body1);
    var b2 := CompStmt(b1, lay, loops1, s.body1);
    ThenExt(b, b1, b2, open);
    ExtTop(b1, b2);
    var b3 := Bind(b2, cont);
    ThenBind(b, b2, cont, open);
    GrowExpr(b3, lay, s.test);
    var (b4, c) := CompExpr(b3, lay, s.test);
    ThenExt(b, b3, b4, open);
    ExtTop(b3, b4);
    var b5 := EmitJump(b4, JUMP_IF_TRUE, c, top);
    ThenJump(b, b4, JUMP_IF_TRUE, c, top, open);
    PlainJump(b4, JUMP_IF_TRUE, c, top);
    ThenBind(b, b5, end, open);
    ExtClose(b, Bind(b5, end), open);
  }

  lemma GrowOpt(b: Ctx, lay: Layout, e: Option<Expr>)
    ensures Ext(b, CompOpt(b, lay, e), {})
    ensures !CompOpt(b, lay, e).failed ==> CompOpt(b, lay, e).handlers == b.handlers
  {
    hide Ext; hide CompExpr;
    ExtRefl(b, {});
    if e.Some? {
      GrowExpr(b, lay, e.value);
    }
  }

  lemma GrowTest(b: Ctx, lay: Layout, e: Option<Expr>, end: nat)
    ensures Ext(b, CompTest(b, lay, e, end), {})
    ensures !CompTest(b, lay, e, end).failed ==> CompTest(b, lay, e, end).handlers == b.handlers
  {
    hide Ext; hide CompExpr; hide EmitJump;
    ExtRefl(b, {});
    if e.Some? {
      GrowExpr(b, lay, e.value);
      var (b1, c) := CompExpr(b, lay, e.value);
      ThenJump(b, b1, JUMP_IF_FALSE, c, end, {});
      PlainJump(b1, JUMP_IF_FALSE, c, end);
    }
  }

  lemma {:induction false} GrowForLoop(b: Ctx, lay: Layout, loops: seq<LoopCtx>, name: Option<Source.Label>,
                                       test: Option<Expr>, update: Option<Expr>, s: Stmt)
    requires s.While? || s.For?
    ensures Ext(b, CompForLoop(b, lay, loops, name, test, update, s), {})
    decreases s, 1
  {
    hide Ext; hide CompOpt; hide CompTest; hide EmitJump; hide LoopStart;
    var (b1, top, cont, end) := LoopStart(b);
    var open := {|b.labels|, |b.labels| + 1, |b.labels| + 2};
    ExtLoopStart(b, open);
    GrowTest(b1, lay, test, end);
    var b2 := CompTest(b1, lay, test, end);
    ThenExt(b, b1, b2, open);
    ExtTop(b1, b2);
    var loops1 := loops + [LoopCtx(end, Some(cont), name, None)];
    GrowStmt(b2, lay, loops1, s.body1);
    var b3 := CompStmt(b2, lay, loops1, s.body1);
    ThenExt(b, b2, b3, open);
    ExtTop(b2, b3);
    var b4 := Bind(b3, cont);
    ThenBind(b, b3, cont, open);
    GrowOpt(b4, lay, update);
    var b5 := CompOpt(b4, lay, update);
    ThenExt(b, b4, b5, open);
    ExtTop(b4, b5);
    var b6 := EmitGoto(b5, top);
    ThenJump(b, b5, JUMP, 0, top, open);
    JumpShape(b5, JUMP, 0, top);
    ThenBind(b, b6, end, open);
    ExtClose(b, Bind(b6, end), open);
  }

  // ---- for-of -----------------------------------------------------------

  lemma PlainGetStr(b: Ctx, obj: nat, name: string)
    ensures var (f, r) := CompGetStr(b, obj, name);
            Plain(b, f) && (!f.failed ==> b.top <= r < f.top)
  {
    hide EncodeRegs; hide LoadConst;
    var (b1, k) := NewTemp(b);
    PlainTemps(b, 1);
    PlainConst(b1, k, Str(name));
    var b2 := LoadConst(b1, k, Str(name));
    PlainTemps(b2, 1);
  }

  lemma GrowSetup(b: Ctx, lay: Layout, rhs: Expr)
    ensures var (h, result) := CompForOfSetup(b, lay, rhs);
            var open := {h.top, h.cont, h.end};
            && Ext(b, h.cx, open)
            && h.cont == h.top + 1 && h.end == h.top + 2 && h.tryStart == |h.cx.items|
            && (!h.cx.failed ==>
                  && |b.labels| <= h.top
                  && h.cx.handlers == b.handlers
                  && |h.cx.labels| == h.top + 3
                  && h.cx.labels[h.top].None? && h.cx.labels[h.cont].None? && h.cx.labels[h.end].None?
                  && b.top <= h.iter < result < h.guard < h.exc < h.cx.top)
  {
    hide Ext; hide CompExpr; hide EmitRegs; hide LoadBool; hide NewTemps;
    GrowExpr(b, lay, rhs);
    var (b1, r) := CompExpr(b, lay, rhs);
    ExtTop(b, b1);
    var (b2, iter) := NewTemp(b1);
    PlainTemps(b1, 1);
    ThenPlain(b, b1, b2, {});
    var b3 := EmitReg3(b2, GET_ITERATOR, iter, r, 0);
    ThenRegs(b, b2, GET_ITERATOR, iter, r, 0, 7, {});
    RegsShape(b2, GET_ITERATOR, iter, r, 0, 7);
    var (b4, result) := NewTemp(b3);
    PlainTemps(b3, 1);
    ThenPlain(b, b3, b4, {});
    var (b5, top) := NewLabel(b4);
    var (b6, cont) := NewLabel(b5);
    var (b7, end) := NewLabel(b6);
    var open := {top, cont, end};
    ExtWeaken(b, b4, {}, open);
    ThenLabel(b, b4, open);
    ThenLabel(b, b5, open);
    ThenLabel(b, b6, open);
    var (b8, guard) := NewTemp(b7);
    PlainTemps(b7, 1);
    ThenPlain(b, b7, b8, open);
    var b9 := LoadBool(b8, guard, false);
    PlainBool(b8, guard, false);
    ThenPlain(b, b8, b9, open);
    PlainTemps(b9, 1);
    ThenPlain(b, b9, NewTemp(b9).0, open);
  }

  lemma RegsShape(b: Ctx, op: Opcode, x: nat, y: nat, z: nat, mask: Byte)
    ensures var f := EmitRegs(b, op, x, y, z, mask);
            Plain(b, f) && f.top == b.top && f.failed == b.failed && f.consts == b.consts && f.labels == b.labels
  {
    hide EncodeRegs;
  }

  lemma GrowHead(b: Ctx, lay: Layout, x: Sym, rhs: Expr)
    ensures var h := CompForOfHead(b, lay, x, rhs);
            var open := {h.top, h.cont, h.end};
            && Ext(b, h.cx, open)
            && h.cont == h.top + 1 && h.end == h.top + 2
            && (!h.cx.failed ==>
                  && |b.labels| <= h.top
                  && h.cx.handlers == b.handlers
                  && |h.cx.labels| == h.top + 3
                  && h.cx.labels[h.top] == Some(h.tryStart) && h.cx.labels[h.cont].None? && h.cx.labels[h.end].None?
                  && |b.items| <= h.tryStart < |h.cx.items|
                  && b.top <= h.iter < h.guard < h.exc < h.cx.top)
  {
    hide Ext; hide CompForOfSetup; hide EmitRegs; hide CompGetStr; hide EmitJump; hide MoveReg;
    GrowSetup(b, lay, rhs);
    var (h, result) := CompForOfSetup(b, lay, rhs);
    var open := {h.top, h.cont, h.end};
    var b1 := Bind(h.cx, h.top);
    ThenBind(b, h.cx, h.top, open);
    var b2 := EmitWords(b1, [Instr(LOOP_HEADER, 0, 0, 0)]);
    ThenWords(b, b1, [Instr(LOOP_HEADER, 0, 0, 0)], open);
    var b3 := EmitReg3(b2, ITERATOR_NEXT, result, h.iter, 0);
    RegsShape(b2, ITERATOR_NEXT, result, h.iter, 0, 7);
    ThenPlain(b, b2, b3, open);
    var (b4, done) := CompGetStr(b3, result, "done");
    PlainGetStr(b3, result, "done");
    ThenPlain(b, b3, b4, open);
    var b5 := EmitJump(b4, JUMP_IF_TRUE, done, h.end);
    PlainJump(b4, JUMP_IF_TRUE, done, h.end);
    ThenPlain(b, b4, b5, open);
    var (b6, value) := CompGetStr(b5, result, "value");
    PlainGetStr(b5, result, "value");
    ThenPlain(b, b5, b6, open);
    MoveShape(b6, RegOf(lay, x), value);
    ThenPlain(b, b6, MoveReg(b6, RegOf(lay, x), value), open);
    ExtItems(b, h.cx, open);
  }

  lemma ExtItems(b: Ctx, f: Ctx, open: set<nat>)
    requires Ext(b, f, open)
    ensures !f.failed ==> b.items <= f.items && b.handlers <= f.handlers && b.consts <= f.consts
  {
  }

  lemma GrowTail(a: Ctx, b: Ctx, h: Head)
    requires Ext(a, b, {h.top, h.cont, h.end})
    requires h.cont == h.top + 1 && h.end == h.top + 2
    requires !b.failed ==>
               && |a.labels| <= h.top && h.end < |b.labels| && b.labels[h.top].Some?
               && |a.items| <= h.tryStart <= |b.items|
    ensures Ext(a, CompForOfTail(b, h), {})
  {
    hide EmitRegs; hide EmitJump; hide Ext;
    var b3 := Bind(EmitGoto(Bind(b, h.cont), h.top), h.end);
    TailStart(a, b, h);
    ExtClose(a, b3, {h.top, h.cont, h.end});
    var (b4, over) := NewLabel(b3);
    var open := {over, over + 1};
    ExtRefl(b3, open);
    ThenLabel(b3, b3, open);
    var b5 := EmitGoto(b4, over);
    JumpShape(b4, JUMP, 0, over);
    ThenPlain(b3, b4, b5, open);
    var (b6, skip) := NewLabel(b5);
    ThenLabel(b3, b5, open);
    var b7 := EmitJump(b6, JUMP_IF_TRUE, h.guard, skip);
    JumpShape(b6, JUMP_IF_TRUE, h.guard, skip);
    ThenPlain(b3, b6, b7, open);
    var b8 := EmitReg3(b7, ITERATOR_CLOSE, h.iter, 0, 0);
    RegsShape(b7, ITERATOR_CLOSE, h.iter, 0, 0, 7);
    ThenPlain(b3, b7, b8, open);
    var b9 := Bind(b8, skip);
    ThenBind(b3, b8, skip, open);
    var b10 := EmitReg3(b9, THROW, h.exc, 0, 0);
    RegsShape(b9, THROW, h.exc, 0, 0, 7);
    ThenPlain(b3, b9, b10, open);
    var b11 := Bind(b10, over);
    ThenBind(b3, b10, over, open);
    ExtClose(b3, b11, open);
    ThenExt(a, b3, b11, {});
    ExtItems(b3, b11, {});
    AddHandler(a, b11, Handler(h.tryStart, |b5.items|, |b5.items|, h.exc));
  }

  lemma AddHandler(a: Ctx, b: Ctx, hd: Handler)
    requires Ext(a, b, {})
    requires !b.failed ==> |a.items| <= hd.start <= |b.items| && hd.end <= |b.items| && hd.target <= |b.items|
    ensures forall m :: Ext(a, b.(handlers := b.handlers + [hd], handlerMax := m), {})
  {
  }

  lemma TailStart(a: Ctx, b: Ctx, h: Head)
    requires Ext(a, b, {h.top, h.cont, h.end})
    requires h.cont == h.top + 1 && h.end == h.top + 2
    requires !b.failed ==> h.end < |b.labels| && b.labels[h.top].Some?
    ensures var b3 := Bind(EmitGoto(Bind(b, h.cont), h.top), h.end);
            && Ext(a, b3, {h.top, h.cont, h.end})
            && (!b3.failed ==>
                  && !b.failed && b3.handlers == b.handlers && |b3.labels| == |b.labels| && b3.top == b.top
                  && |b.items| <= |b3.items|
                  && b3.labels[h.top].Some? && b3.labels[h.cont].Some? && b3.labels[h.end].Some?)
  {
    hide EmitJump; hide Ext;
    var open := {h.top, h.cont, h.end};
    var b1 := Bind(b, h.cont);
    ThenBind(a, b, h.cont, open);
    var b2 := EmitGoto(b1, h.top);
    PlainJump(b1, JUMP, 0, h.top);
    JumpShape(b1, JUMP, 0, h.top);
    ThenPlain(a, b1, b2, open);
    ThenBind(a, b2, h.end, open);
  }

  lemma JumpShape(b: Ctx, op: Opcode, reg: nat, l: nat)
    ensures var f := EmitJump(b, op, reg, l);
            Plain(b, f) && f.top == b.top && f.failed == b.failed && f.consts == b.consts && f.labels == b.labels
  {
  }

  lemma {:induction false} GrowForOf(b: Ctx, lay: Layout, loops: seq<LoopCtx>, s: Stmt)
    requires s.ForOf?
    ensures Ext(b, CompStmt(b, lay, loops, s), {})
    decreases s, 1
  {
    hide Ext; hide CompForOfHead; hide CompForOfTail;
    GrowHead(b, lay, s.x, s.rhs);
    var h := CompForOfHead(b, lay, s.x, s.rhs);
    var open := {h.top, h.cont, h.end};
    var loops1 := loops + [LoopCtx(h.end, Some(h.cont), s.name, Some((h.iter, h.guard)))];
    GrowStmt(h.cx, lay, loops1, s.body1);
    var b1 := CompStmt(h.cx, lay, loops1, s.body1);
    ThenExt(b, h.cx, b1, open);
    ExtTop(h.cx, b1);
    ExtItems(h.cx, b1, {});
    GrowTail(b, b1, h);
  }

  // ---- switch -----------------------------------------------------------

  function TestCount(cs: Cases): nat {
    match cs
    case NoCase => 0
    case Case(t, _, rest) => (if t.Some? then 1 else 0) + TestCount(rest)
  }

  // The guards leave exactly the entry labels unbound.
  lemma {:induction false} GrowTests(b: Ctx, lay: Layout, d: nat, cs: Cases)
    ensures var (f, es) := CompTests(b, lay, d, cs);
            && Ext(b, f, set l | l in es)
            && |es| == TestCount(cs)
            && (!f.failed ==>
                  && f.handlers == b.handlers
                  && forall i :: 0 <= i < |es| ==> |b.labels| <= es[i] < |f.labels|)
    decreases cs
  {
    hide Ext; hide CompExpr; hide EmitRegs; hide EmitJump; hide NewTemps;
    match cs
    case NoCase => ExtRefl(b, set l: nat | l in []);
    case Case(t, _, rest) =>
      if t.None? {
        GrowTests(b, lay, d, rest);
      } else {
        GrowExpr(b, lay, t.value);
        var (b1, v) := CompExpr(b, lay, t.value);
        ExtTop(b, b1);
        var (b2, eq) := NewTemp(b1);
        GrowOp(b, b1, STRICT_EQ, d, v, 7);
        var b3 := EmitReg3(b2, STRICT_EQ, eq, d, v);
        var (b4, entry) := NewLabel(b3);
        var b5 := EmitJump(b4, JUMP_IF_TRUE, eq, entry);
        GrowTests(b5, lay, d, rest);
        var (f, es) := CompTests(b5, lay, d, rest);
        var open := set l | l in [entry] + es;
        assert (set l | l in es) <= open;
        assert ([entry] + es)[0] == entry;
        ExtWeaken(b, b3, {}, open);
        ThenLabel(b, b3, open);
        ThenJump(b, b4, JUMP_IF_TRUE, eq, entry, open);
        JumpShape(b4, JUMP_IF_TRUE, eq, entry);
        ExtWeaken(b5, f, (set l | l in es), open);
        ExtTrans(b, b5, f, open);
        ExtTop(b, b3);
        ExtLabels(b5, f, set l | l in es);
      }
  }

  lemma ExtLabels(b: Ctx, f: Ctx, open: set<nat>)
    requires Ext(b, f, open)
    ensures b.failed ==> f.failed
    ensures !f.failed ==>
              && |b.labels| <= |f.labels| && b.top <= f.top
              && forall l :: 0 <= l < |b.labels| && (l !in open || b.labels[l].Some?) ==> f.labels[l] == b.labels[l]
  {
  }

  lemma {:induction false} GrowBodies(b: Ctx, lay: Layout, loops: seq<LoopCtx>, cs: Cases, entries: seq<nat>,
                                      deflt: nat, open: set<nat>)
    requires deflt in open && forall i :: 0 <= i < |entries| ==> entries[i] in open
    ensures var f := CompBodies(b, lay, loops, cs, entries, deflt);
            && Ext(b, f, open)
            && (!f.failed ==>
                  && (Defaults(cs) > 0 ==> deflt < |f.labels| && f.labels[deflt].Some?)
                  && |entries| >= TestCount(cs)
                  && forall i :: 0 <= i < TestCount(cs) ==> entries[i] < |f.labels| && f.labels[entries[i]].Some?)
    decreases cs, 0
  {
    hide Ext; hide CompStmts;
    ExtRefl(b, open);
    match cs
    case NoCase =>
    case Case(t, body, rest) =>
      if t.Some? && entries == [] {
        FailedExt(b, open);
      } else {
        var l := if t.None? then deflt else entries[0];
        var more := if t.None? then entries else entries[1..];
        var b1 := Bind(b, l);
        ThenBind(b, b, l, open);
        GrowStmts(b1, lay, loops, body);
        var b2 := CompStmts(b1, lay, loops, body);
        ThenExt(b, b1, b2, open);
        ExtTop(b1, b2);
        GrowBodies(b2, lay, loops, rest, more, deflt, open);
        var f := CompBodies(b2, lay, loops, rest, more, deflt);
        ExtTrans(b, b2, f, open);
        ExtLabels(b2, f, open);
        if t.Some? && !f.failed {
          forall i | 0 <= i < TestCount(cs)
            ensures entries[i] < |f.labels| && f.labels[entries[i]].Some?
          {
            if i > 0 {
              assert entries[i] == more[i - 1];
            }
          }
        }
      }
  }

  lemma FailedExt(b: Ctx, open: set<nat>)
    ensures Ext(b, b.(failed := true), open)
  {
  }

  lemma {:induction false} GrowSwitch(b: Ctx, lay: Layout, loops: seq<LoopCtx>, s: Stmt)
    requires s.Switch?
    ensures Ext(b, CompStmt(b, lay, loops, s), {})
    decreases s, 1
  {
    hide Ext; hide CompExpr; hide CompTests; hide CompBodies; hide EmitJump;
    GrowExpr(b, lay, s.disc);
    var (b1, d) := CompExpr(b, lay, s.disc);
    ExtTop(b, b1);
    var (b2, end) := NewLabel(b1);
    if Defaults(s.cases) > 1 {
      ExtWeaken(b, b1, {}, {end});
      ThenLabel(b, b1, {end});
      FailedExt(b2, {end});
      ExtTrans(b, b2, b2.(failed := true), {end});
      ExtClose(b, b2.(failed := true), {end});
      return;
    }
    var (b3, deflt) := if Defaults(s.cases) == 1 then NewLabel(b2) else (b2, end);
    GrowTests(b3, lay, d, s.cases);
    var (b4, entries) := CompTests(b3, lay, d, s.cases);
    var inner := set l | l in entries;
    var open := inner + {end, deflt};
    ExtWeaken(b, b1, {}, open);
    ThenLabel(b, b1, open);
    if Defaults(s.cases) == 1 {
      ThenLabel(b, b2, open);
    }
    ExtWeaken(b3, b4, inner, open);
    ExtTrans(b, b3, b4, open);
    ExtLabels(b3, b4, inner);
    var b5 := EmitGoto(b4, deflt);
    ThenJump(b, b4, JUMP, 0, deflt, open);
    JumpShape(b4, JUMP, 0, deflt);
    var loops1 := loops + [LoopCtx(end, None, s.name, None)];
    GrowBodies(b5, lay, loops1, s.cases, entries, deflt, open);
    var b6 := CompBodies(b5, lay, loops1, s.cases, entries, deflt);
    ExtTrans(b, b5, b6, open);
    ExtLabels(b5, b6, open);
    ThenBind(b, b6, end, open);
    ExtClose(b, Bind(b6, end), open);
  }
}
