/**
 The lowering as the source has it: an emission context that appends to a builder,
 allocates temporaries, binds labels and pushes loop entries as it walks the tree
 (`FnCtx` of crates/v12-bccompiler/src/model.rs, with expr.rs and stmt.rs).  Every
 method computes the corresponding function of `Lowering`.
 */
module Emitter {
  import opened Words
  import opened Machine
  import opened Assembly
  import opened Source
  import opened Lowering
  import opened Growth
  import opened Demand
  import opened Builder
  import opened ForOfFrame
  import opened ExprCorrect
  import opened StmtFrame
  import opened ListedCode
  import opened Validator

  class FnCtx {
    const lay: Layout
    const b: FunctionBuilder
    var tempTop: nat
    var highWater: nat
    var handlerMax: nat
    var failed: bool
    var loops: seq<LoopCtx>
    // Every register ever handed out.
    ghost var handed: set<nat>

    ghost function View(): Ctx
      reads this, b
    {
      Ctx(b.items, b.labels, b.consts, b.handlers, tempTop, highWater, handlerMax, failed)
    }

    // The builder is consistent and loop entries name labels that exist.
    ghost predicate Ready()
      reads this, b
    {
      b.Ok() && Known(loops, |b.labels|) && Budgeted()
    }

    // Temporaries lie strictly above the reserved register and below the high-water
    // mark, also after a release; handlers deliver below the mark kept for them.
    ghost predicate Budgeted()
      reads this`tempTop, this`highWater, this`handed, this`handlerMax, b`handlers
    {
      && lay.localsEnd < tempTop <= highWater
      && (forall r :: r in handed ==> lay.localsEnd < r < highWater)
      && (forall i :: 0 <= i < |b.handlers| ==> b.handlers[i].depth < handlerMax)
    }

    static ghost predicate Known(loops: seq<LoopCtx>, n: nat) {
      forall i :: 0 <= i < |loops| ==> loops[i].brk < n && (loops[i].cont.Some? ==> loops[i].cont.value < n)
    }

    // What every step of emission leaves alone, and that labels are never forgotten.
    twostate predicate Goes()
      reads this, b
    {
      Ready() && loops == old(loops) && |old(b.labels)| <= |b.labels| && old(handed) <= handed
    }

    constructor (lay: Layout)
      ensures Ready() && this.lay == lay && View() == NewCtx(lay) && loops == [] && fresh(b)
    {
      this.lay := lay;
      tempTop, highWater, handlerMax, failed, loops, handed := lay.localsEnd + 1, lay.localsEnd + 1, 0, false, [], {};
      b := new FunctionBuilder();
    }

    // ---- registers --------------------------------------------------------

    // Consecutive registers from the current top on.  After a release they may be ones
    // that were handed out before; all of them stay on record.
    method NewTemps(n: nat) returns (r: nat)
      requires Ready()
      modifies this
      ensures Goes() && (View(), r) == Lowering.NewTemps(old(View()), n)
      ensures !failed ==> r == old(tempTop) && forall k :: k in Window(r, Max(n, 1)) ==> k in handed
    {
      if failed { return 0; }
      if tempTop + n > MAX_REGS || tempTop >= MAX_REGS { failed := true; return 0; }
      r := tempTop;
      tempTop := tempTop + n;
      highWater := Max(highWater, r + Max(n, 1));
      handed := handed + set k | k in Window(r, Max(n, 1));
    }

    method TempMark() returns (mark: nat)
      requires Ready()
      ensures mark == tempTop && lay.localsEnd < mark
    {
      mark := tempTop;
    }

    // Releasing never moves the top up, and forgets nothing about the high-water mark.
    method TempRelease(mark: nat)
      requires Ready() && lay.localsEnd < mark
      modifies this`tempTop
      ensures Goes() && highWater == old(highWater) && handed == old(handed)
      ensures tempTop == if mark < old(tempTop) then mark else old(tempTop)
    {
      if mark < tempTop { tempTop := mark; }
    }

    method NewTemp() returns (r: nat)
      requires Ready()
      modifies this
      ensures Goes() && (View(), r) == Lowering.NewTemp(old(View()))
      ensures !failed ==> r == old(tempTop) && r in handed
    {
      hide FunctionBuilder.Ok; hide FnCtx.Budgeted;
      hide Lowering.NewTemps;
      r := NewTemps(1);
      assert !failed ==> Window(r, 1)[0] == r;
    }

    // ---- words ------------------------------------------------------------

    method EmitWords(ws: seq<Instr>)
      requires Ready()
      modifies this, b
      ensures Goes() && View() == Lowering.EmitWords(old(View()), ws)
    {
      for i := 0 to |ws|
        invariant Goes() && View() == Lowering.EmitWords(old(View()), ws[..i])
      {
        b.EmitSpanned(ws[i], (0, 0));
        assert Raws(ws[..i + 1]) == Raws(ws[..i]) + [Raw(ws[i])];
      }
      assert ws[..|ws|] == ws;
    }

    method EmitRegs(op: Opcode, x: nat, y: nat, z: nat, mask: Byte)
      requires Ready()
      modifies this, b
      ensures Goes() && View() == Lowering.EmitRegs(old(View()), op, x, y, z, mask)
    {
      hide FunctionBuilder.Ok; hide FnCtx.Budgeted;
      hide Lowering.EmitWords; hide Low8; hide Prefix;
      if x <= 255 && y <= 255 && z <= 255 {
        EmitWords([Instr(op, x, y, z)]);
      } else {
        EmitWords(Prefix(mask, x, y, z) + [Instr(op, Low8(x), Low8(y), Low8(z))]);
      }
    }

    method MoveReg(dst: nat, src: nat)
      requires Ready()
      modifies this, b
      ensures Goes() && View() == Lowering.MoveReg(old(View()), dst, src)
    {
      hide FunctionBuilder.Ok; hide FnCtx.Budgeted;
      hide Lowering.EmitRegs;
      EmitRegs(MOVE, dst, src, 0, 3);
    }

    method EmitReg3(op: Opcode, x: nat, y: nat, z: nat)
      requires Ready()
      modifies this, b
      ensures Goes() && View() == Lowering.EmitReg3(old(View()), op, x, y, z)
    {
      hide FunctionBuilder.Ok; hide FnCtx.Budgeted;
      hide Lowering.EmitRegs;
      EmitRegs(op, x, y, z, 7);
    }

    method LoadUndefined(dst: nat)
      requires Ready()
      modifies this, b
      ensures Goes() && View() == Lowering.LoadUndefined(old(View()), lay, dst)
    {
      hide FunctionBuilder.Ok; hide FnCtx.Budgeted;
      hide Lowering.MoveReg;
      MoveReg(dst, lay.localsEnd);
    }

    method AddConst(v: Val) returns (k: nat)
      requires Ready()
      modifies this, b
      ensures Goes() && (View(), k) == Lowering.AddConst(old(View()), v)
      ensures failed <==> old(failed) || (v !in old(b.consts) && |old(b.consts)| >= MAX_CONSTANTS)
    {
      hide FindConst;
      var i := b.AddConst(v);
      if i.None? { failed := true; return 0; }
      k := i.value;
    }

    method LoadConst(dst: nat, v: Val)
      requires Ready()
      modifies this, b
      ensures Goes() && View() == Lowering.LoadConst(old(View()), dst, v)
      ensures failed <==> old(failed) || (v !in old(b.consts) && |old(b.consts)| >= MAX_CONSTANTS)
    {
      hide FunctionBuilder.Ok; hide FnCtx.Budgeted;
      hide Lowering.EmitRegs; hide Lowering.AddConst;
      var k := AddConst(v);
      SameRegs(View(), LOAD_CONST, dst, k / 256, k % 256, 1);
      EmitRegs(LOAD_CONST, dst, k / 256, k % 256, 1);
    }

    method LoadInt(dst: nat, v: int)
      requires Ready()
      modifies this, b
      ensures Goes() && View() == Lowering.LoadInt(old(View()), dst, v)
    {
      hide FunctionBuilder.Ok; hide FnCtx.Budgeted;
      hide Lowering.EmitWords; hide Low8; hide EncodeIntW;
      if -128 <= v <= 127 && dst <= 255 { EmitWords([Instr(LOAD_INT, dst, 0, Low8(v))]); }
        else { EmitWords(EncodeIntW(dst, v)); }
    }

    method LoadBool(dst: nat, v: bool)
      requires Ready()
      modifies this, b
      ensures Goes() && View() == Lowering.LoadBool(old(View()), dst, v)
    {
      hide FunctionBuilder.Ok; hide FnCtx.Budgeted;
      hide Lowering.EmitReg3; hide Lowering.NewTemp; hide Lowering.LoadInt;
      var t := NewTemp();
      LoadInt(t, 0);
      EmitReg3(if v then EQ else NE, dst, t, t);
    }

    method LoadValue(dst: nat, v: Val)
      requires Ready()
      modifies this, b
      ensures Goes() && View() == Lowering.LoadValue(old(View()), lay, dst, v)
    {
      hide FunctionBuilder.Ok; hide FnCtx.Budgeted;
      hide Lowering.LoadConst; hide Lowering.LoadBool; hide Lowering.LoadInt; hide Lowering.LoadUndefined;
      match v
      case Undefined => LoadUndefined(dst);
      case Bool(x) => LoadBool(dst, x);
      case Num(n) => if n.Int? && FitsI64(n.i) { LoadInt(dst, n.i); } else { LoadConst(dst, v); }
      case _ => LoadConst(dst, v);
    }

    method EmitCall(dst: nat, callee: nat, argc: nat)
      requires Ready()
      modifies this, b
      ensures Goes() && View() == Lowering.EmitCall(old(View()), dst, callee, argc)
    {
      hide FunctionBuilder.Ok; hide FnCtx.Budgeted;
      hide Lowering.EmitRegs; hide EncodeCallW; hide Lowering.EmitWords;
      if argc > 255 { EmitWords(EncodeCallW(dst, callee, argc)); } else { EmitRegs(CALL, dst, callee, argc, 3); }
    }

    // ---- labels -----------------------------------------------------------

    method NewLabel() returns (l: nat)
      requires Ready()
      modifies b
      ensures Goes() && (View(), l) == Lowering.NewLabel(old(View())) && l < |b.labels|
    {
      l := b.NewLabel();
    }

    // Binding a label twice is a bug; the source panics, here the context fails.
    method Bind(l: nat)
      requires Ready()
      modifies this, b
      ensures Goes() && View() == Lowering.Bind(old(View()), l)
    {
      if l < |b.labels| && b.labels[l].None? { b.Bind(l); } else { failed := true; }
    }

    method EmitJump(op: Opcode, reg: nat, l: nat)
      requires Ready() && IsBranch(op) && l < |b.labels|
      modifies this, b
      ensures Goes() && View() == Lowering.EmitJump(old(View()), op, reg, l)
    {
      hide Prefix; hide Low8; hide Lowering.EmitWords;
      if reg > 255 { EmitWords(Prefix(1, reg, 0, 0)); }
      b.EmitJump(op, Low8(reg), l);
    }

    method EmitGoto(l: nat)
      requires Ready() && l < |b.labels|
      modifies this, b
      ensures Goes() && View() == Lowering.EmitGoto(old(View()), l)
    {
      hide FunctionBuilder.Ok; hide FnCtx.Budgeted;
      hide Lowering.EmitJump;
      EmitJump(JUMP, 0, l);
    }

    // ---- expressions ------------------------------------------------------

    method Expr(e: Expr) returns (r: nat)
      requires Ready()
      modifies this, b
      ensures Goes() && (View(), r) == CompExpr(old(View()), lay, e)
      decreases e, 1
    {
      hide FunctionBuilder.Ok; hide FnCtx.Budgeted;
      hide Lowering.EmitRegs; hide Lowering.MoveReg; hide Lowering.NewTemp; hide Lowering.LoadValue;
      hide Lowering.EmitReg3; hide RegOf;
      match e
      case Lit(v) =>
        r := NewTemp();
        LoadValue(r, v);
      case Local(x) =>
        r := NewTemp();
        MoveReg(r, RegOf(lay, x));
      case Unary(op, e1) =>
        var v := Expr(e1);
        r := NewTemp();
        EmitRegs(op, r, v, 0, 3);
      case Binary(op, x, y) =>
        var v := Expr(x);
        var w := Expr(y);
        r := NewTemp();
        EmitReg3(op, r, v, w);
      case ShortCircuit(_, _, _) => r := Logical(e);
      case Cond(_, _, _) => r := Conditional(e);
      case Comma(x, y) =>
        var _ := Expr(x);
        r := Expr(y);
      case Assign(x, e1) =>
        r := Expr(e1);
        if RegOf(lay, x) != r { MoveReg(RegOf(lay, x), r); }
      case Chain(_, _) => r := ChainExpr(e);
    }

    method Logical(e: Expr) returns (r: nat)
      requires Ready() && e.ShortCircuit?
      modifies this, b
      ensures Goes() && (View(), r) == CompExpr(old(View()), lay, e)
      decreases e, 0
    {
      hide FunctionBuilder.Ok; hide FnCtx.Budgeted;
      hide Lowering.MoveReg; hide Lowering.Bind; hide CompGuard;
      r := Expr(e.l);
      var end := NewLabel();
      Guard(e.lop, r, end);
      var w := Expr(e.r);
      MoveReg(r, w);
      Bind(end);
    }

    method Guard(lop: Logic, dst: nat, end: nat)
      requires Ready() && end < |b.labels|
      modifies this, b
      ensures Goes() && View() == CompGuard(old(View()), lop, dst, end)
    {
      hide FunctionBuilder.Ok; hide FnCtx.Budgeted;
      hide Lowering.EmitJump; hide CompNullish;
      match lop
      case Or => EmitJump(JUMP_IF_TRUE, dst, end);
      case And => EmitJump(JUMP_IF_FALSE, dst, end);
      case Coalesce =>
        var t := NullishTest(dst);
        EmitJump(JUMP_IF_FALSE, t, end);
    }

    method NullishTest(v: nat) returns (t: nat)
      requires Ready()
      modifies this, b
      ensures Goes() && (View(), t) == CompNullish(old(View()), v)
    {
      hide FunctionBuilder.Ok; hide FnCtx.Budgeted;
      hide Lowering.NewTemp; hide Lowering.LoadConst; hide Lowering.EmitReg3;
      var n := NewTemp();
      LoadConst(n, Null);
      t := NewTemp();
      EmitReg3(EQ, t, v, n);
    }

    method Conditional(e: Expr) returns (r: nat)
      requires Ready() && e.Cond?
      modifies this, b
      ensures Goes() && (View(), r) == CompExpr(old(View()), lay, e)
      decreases e, 0
    {
      hide FunctionBuilder.Ok; hide FnCtx.Budgeted;
      hide Lowering.MoveReg; hide Lowering.Bind; hide Lowering.EmitJump; hide Lowering.NewTemp;
      var c := Expr(e.test);
      r := NewTemp();
      var elseL := NewLabel();
      var endL := NewLabel();
      EmitJump(JUMP_IF_FALSE, c, elseL);
      var x := Expr(e.thn);
      MoveReg(r, x);
      EmitGoto(endL);
      Bind(elseL);
      var y := Expr(e.els);
      MoveReg(r, y);
      Bind(endL);
    }

    method ChainExpr(e: Expr) returns (r: nat)
      requires Ready() && e.Chain?
      modifies this, b
      ensures Goes() && (View(), r) == CompExpr(old(View()), lay, e)
      decreases e, 0
    {
      hide FunctionBuilder.Ok; hide FnCtx.Budgeted;
      hide Lowering.MoveReg; hide Lowering.Bind; hide Lowering.NewTemp; hide CompLinks;
      var exit := NewLabel();
      r := NewTemp();
      var cur := Expr(e.base);
      var last := ChainLinks(e.links, r, exit, cur, None);
      MoveReg(r, last);
      Bind(exit);
    }

    method NullishExit(v: nat, dst: nat, exit: nat)
      requires Ready() && exit < |b.labels|
      modifies this, b
      ensures Goes() && View() == CompExit(old(View()), lay, v, dst, exit)
    {
      hide FunctionBuilder.Ok; hide FnCtx.Budgeted;
      hide CompNullish; hide Lowering.Bind; hide Lowering.EmitJump; hide Lowering.LoadUndefined;
      var t := NullishTest(v);
      var keep := NewLabel();
      EmitJump(JUMP_IF_FALSE, t, keep);
      LoadUndefined(dst);
      EmitGoto(exit);
      Bind(keep);
    }

    method ChainLinks(links: Links, dst: nat, exit: nat, cur: nat, recv: Option<nat>) returns (r: nat)
      requires Ready() && exit < |b.labels|
      modifies this, b
      ensures Goes() && (View(), r) == CompLinks(old(View()), lay, links, dst, exit, cur, recv)
      decreases links, 4
    {
      hide FunctionBuilder.Ok; hide FnCtx.Budgeted;
      hide CompExit; hide CompMember; hide CompInvoke;
      match links
      case End => r := cur;
      case Member(optional, key, rest) =>
        if optional { NullishExit(cur, dst, exit); }
        var nxt := MemberGet(key, cur);
        r := ChainLinks(rest, dst, exit, nxt, Some(cur));
      case Invoke(optional, args, rest) =>
        if optional { NullishExit(cur, dst, exit); }
        var w := Call(args, cur, recv);
        r := ChainLinks(rest, dst, exit, w, None);
    }

    method MemberGet(key: Key, cur: nat) returns (r: nat)
      requires Ready()
      modifies this, b
      ensures Goes() && (View(), r) == CompMember(old(View()), lay, key, cur)
      decreases key, 3
    {
      hide FunctionBuilder.Ok; hide FnCtx.Budgeted;
      hide Lowering.NewTemp; hide Lowering.LoadConst; hide Lowering.EmitReg3; hide CompExpr;
      var k;
      match key {
        case Static(name) =>
          k := NewTemp();
          LoadConst(k, Str(name));
        case Computed(e) => k := Expr(e);
      }
      r := NewTemp();
      EmitReg3(GET_PROPERTY, r, cur, k);
    }

    method Call(args: Args, cur: nat, recv: Option<nat>) returns (w: nat)
      requires Ready()
      modifies this, b
      ensures Goes() && (View(), w) == CompInvoke(old(View()), lay, args, cur, recv)
      decreases args, 3
    {
      hide FunctionBuilder.Ok; hide FnCtx.Budgeted;
      hide Lowering.NewTemps; hide Lowering.MoveReg; hide Lowering.LoadUndefined; hide CompArgs; hide Lowering.EmitCall;
      hide Argc;
      w := NewTemps(CALL_HEADER_REGS + Argc(args));
      MoveReg(w, cur);
      if recv.Some? { MoveReg(w + 1, recv.value); } else { LoadUndefined(w + 1); }
      CallArgs(args, w + 2);
      EmitCall(w, w, Argc(args));
    }

    method CallArgs(args: Args, slot: nat)
      requires Ready()
      modifies this, b
      ensures Goes() && View() == CompArgs(old(View()), lay, args, slot)
      decreases args, 2
    {
      hide FunctionBuilder.Ok; hide FnCtx.Budgeted;
      hide CompExpr; hide Lowering.MoveReg;
      if args.Arg? {
        var r := Expr(args.e);
        if r != slot { MoveReg(slot, r); }
        CallArgs(args.rest, slot + 1);
      }
    }

    // ---- jumps out of loops -------------------------------------------------

    // Closes for the loops being left, innermost first.
    method EmitCloses(from: nat)
      requires Ready() && from <= |loops|
      modifies this, b
      ensures Goes() && View() == Lowering.EmitCloses(old(View()), old(loops)[from..])
    {
      hide FunctionBuilder.Ok; hide FnCtx.Budgeted;
      hide CloseOne; hide Lowering.EmitCloses;
      var i := |loops|;
      NoCloses(View());
      assert loops[from..] == loops[from..i] && loops[i..] == [];
      while i > from
        invariant from <= i <= |loops| && Goes()
        invariant Lowering.EmitCloses(old(View()), loops[from..]) == Lowering.EmitCloses(View(), loops[from..i])
        decreases i
      {
        i := i - 1;
        var lc := loops[i];
        OneClose(View(), loops, from, i);
        if lc.iter.Some? { Close(lc.iter.value); }
      }
      NoCloses(View());
      assert loops[from..from] == [];
    }

    static lemma NoCloses(cx: Ctx)
      ensures Lowering.EmitCloses(cx, []) == cx
    {
    }

    static lemma OneClose(cx: Ctx, loops: seq<LoopCtx>, from: nat, i: nat)
      requires from <= i < |loops|
      ensures Lowering.EmitCloses(cx, loops[from..i + 1]) ==
              Lowering.EmitCloses(if loops[i].iter.Some? then CloseOne(cx, loops[i].iter.value) else cx, loops[from..i])
    {
      hide CloseOne;
      var ls := loops[from..i + 1];
      assert ls[|ls| - 1] == loops[i] && ls[..|ls| - 1] == loops[from..i];
    }

    method Close(it: (nat, nat))
      requires Ready()
      modifies this, b
      ensures Goes() && View() == CloseOne(old(View()), it)
    {
      hide FunctionBuilder.Ok; hide FnCtx.Budgeted;
      hide Lowering.LoadBool; hide Lowering.EmitReg3;
      LoadBool(it.1, true);
      EmitReg3(ITERATOR_CLOSE, it.0, 1, 0);
    }

    // The innermost entry the jump resolves to, searched from the inside out.
    method Resolve(want: Option<Source.Label>, isCont: bool) returns (p: Option<nat>)
      ensures p == RPosition(loops, want, isCont)
    {
      hide FunctionBuilder.Ok; hide FnCtx.Budgeted;
      hide RPosition;
      var i := |loops|;
      while i > 0
        invariant 0 <= i <= |loops| && forall j :: i <= j < |loops| ==> !Resolves(loops[j], want, isCont)
        decreases i
      {
        i := i - 1;
        if Resolves(loops[i], want, isCont) { return Some(i); }
      }
      return None;
    }

    method JumpOut(want: Option<Source.Label>, isCont: bool)
      requires Ready()
      modifies this, b
      ensures Goes() && View() == CompJumpOut(old(View()), old(loops), want, isCont)
    {
      hide FunctionBuilder.Ok; hide FnCtx.Budgeted;
      hide Lowering.EmitCloses; hide Lowering.EmitJump; hide RPosition;
      var p := Resolve(want, isCont);
      if p.None? || (isCont && loops[p.value].cont.None?) {
        failed := true;
      } else if isCont {
        EmitCloses(p.value + 1);
        EmitGoto(loops[p.value].cont.value);
      } else {
        EmitCloses(p.value);
        EmitGoto(loops[p.value].brk);
      }
    }

    // ---- statements ---------------------------------------------------------

    method Stmt(s: Stmt)
      requires Ready()
      modifies this, b
      ensures Goes() && View() == CompStmt(old(View()), lay, old(loops), s)
      decreases s, 3
    {
      hide FunctionBuilder.Ok; hide FnCtx.Budgeted;
      hide CompExpr; hide CompForLoop; hide CompOpt; hide CompJumpOut; hide CompReturnValue; hide Lowering.EmitCloses;
      hide Lowering.EmitReg3; hide CompStmts;
      match s
      case Empty =>
      case ExprStmt(e) => var _ := Expr(e);
      case Block(body) => StmtList(body);
      case If(_, _, _) => IfStmt(s);
      case While(name, t, _) => Loop(s, name, Some(t), None);
      case DoWhile(_, _, _) => DoWhileLoop(s);
      case For(name, init, test, update, _) =>
        Opt(init);
        Loop(s, name, test, update);
      case ForOf(_, _, _, _) => ForOfLoop(s);
      case Labeled(_, _) => LabeledStmt(s);
      case Switch(_, _, _) => SwitchStmt(s);
      case Break(l) => JumpOut(l, false);
      case Continue(l) => JumpOut(l, true);
      case Return(arg) =>
        var v := ReturnValue(arg);
        assert loops[0..] == loops;
        EmitCloses(0);
        EmitReg3(RETURN, v, 0, 0);
      case Throw(e) =>
        var v := Expr(e);
        EmitReg3(THROW, v, 0, 0);
    }

    method StmtList(ss: Stmts)
      requires Ready()
      modifies this, b
      ensures Goes() && View() == CompStmts(old(View()), lay, old(loops), ss)
      decreases ss, 0
    {
      hide FunctionBuilder.Ok; hide FnCtx.Budgeted;
      hide CompStmt;
      if ss.Cons? {
        Stmt(ss.head);
        StmtList(ss.tail);
      }
    }

    // A statement inside one more loop entry.
    method WithLoop(lc: LoopCtx, body: Stmt)
      requires Ready() && lc.brk < |b.labels| && (lc.cont.Some? ==> lc.cont.value < |b.labels|)
      modifies this, b
      ensures Goes() && View() == CompStmt(old(View()), lay, old(loops) + [lc], body)
      decreases body, 4
    {
      hide FunctionBuilder.Ok; hide FnCtx.Budgeted;
      hide CompStmt;
      loops := loops + [lc];
      Stmt(body);
      loops := loops[..|loops| - 1];
    }

    method IfStmt(s: Stmt)
      requires Ready() && s.If?
      modifies this, b
      ensures Goes() && View() == CompStmt(old(View()), lay, old(loops), s)
      decreases s, 2
    {
      hide FunctionBuilder.Ok; hide FnCtx.Budgeted;
      hide CompExpr; hide Lowering.EmitJump; hide Lowering.Bind;
      var c := Expr(s.test);
      var elseL := NewLabel();
      var endL := NewLabel();
      EmitJump(JUMP_IF_FALSE, c, elseL);
      Stmt(s.thn);
      EmitGoto(endL);
      Bind(elseL);
      Stmt(s.els);
      Bind(endL);
    }

    method StartLoop() returns (top: nat, cont: nat, end: nat)
      requires Ready()
      modifies this, b
      ensures Goes() && (View(), top, cont, end) == LoopStart(old(View())) && top < |b.labels| && cont < |b.labels|
              && end < |b.labels|
    {
      hide FunctionBuilder.Ok; hide FnCtx.Budgeted;
      hide Lowering.Bind; hide Lowering.EmitWords;
      top := NewLabel();
      cont := NewLabel();
      end := NewLabel();
      Bind(top);
      EmitWords([Instr(LOOP_HEADER, 0, 0, 0)]);
    }

    method Opt(e: Option<Expr>)
      requires Ready()
      modifies this, b
      ensures Goes() && View() == CompOpt(old(View()), lay, e)
      decreases e, 0
    {
      hide FunctionBuilder.Ok; hide FnCtx.Budgeted;
      hide CompExpr;
      if e.Some? { var _ := Expr(e.value); }
    }

    method Loop(s: Stmt, name: Option<Source.Label>, test: Option<Expr>, update: Option<Expr>)
      requires Ready() && (s.While? || s.For?)
      modifies this, b
      ensures Goes() && View() == CompForLoop(old(View()), lay, old(loops), name, test, update, s)
      decreases s, 2
    {
      hide FunctionBuilder.Ok; hide FnCtx.Budgeted;
      hide LoopStart; hide CompOpt; hide CompExpr; hide CompStmt; hide Lowering.Bind; hide Lowering.EmitJump;
      var top, cont, end := StartLoop();
      if test.Some? {
        var c := Expr(test.value);
        EmitJump(JUMP_IF_FALSE, c, end);
      }
      WithLoop(LoopCtx(end, Some(cont), name, None), s.body1);
      Bind(cont);
      Opt(update);
      EmitGoto(top);
      Bind(end);
    }

    method DoWhileLoop(s: Stmt)
      requires Ready() && s.DoWhile?
      modifies this, b
      ensures Goes() && View() == CompStmt(old(View()), lay, old(loops), s)
      decreases s, 2
    {
      hide FunctionBuilder.Ok; hide FnCtx.Budgeted;
      hide LoopStart; hide CompExpr; hide Lowering.Bind; hide Lowering.EmitJump;
      var top, cont, end := StartLoop();
      WithLoop(LoopCtx(end, Some(cont), s.name, None), s.body1);
      Bind(cont);
      var c := Expr(s.test);
      EmitJump(JUMP_IF_TRUE, c, top);
      Bind(end);
    }

    method LabeledStmt(s: Stmt)
      requires Ready() && s.Labeled?
      modifies this, b
      ensures Goes() && View() == CompStmt(old(View()), lay, old(loops), s)
      decreases s, 2
    {
      hide FunctionBuilder.Ok; hide FnCtx.Budgeted;
      hide Lowering.Bind;
      var end := NewLabel();
      WithLoop(LoopCtx(end, None, Some(s.lab), None), s.body1);
      Bind(end);
    }

    method ReturnValue(arg: Option<Expr>) returns (v: nat)
      requires Ready()
      modifies this, b
      ensures Goes() && (View(), v) == CompReturnValue(old(View()), lay, arg)
      decreases arg, 0
    {
      hide FunctionBuilder.Ok; hide FnCtx.Budgeted;
      hide CompExpr; hide Lowering.NewTemp; hide Lowering.LoadUndefined;
      if arg.Some? {
        v := Expr(arg.value);
      } else {
        v := NewTemp();
        LoadUndefined(v);
      }
    }

    // ---- for-of ---------------------------------------------------------------

    method ForOfLoop(s: Stmt)
      requires Ready() && s.ForOf?
      modifies this, b
      ensures Goes() && View() == CompStmt(old(View()), lay, old(loops), s)
      decreases s, 2
    {
      hide FunctionBuilder.Ok; hide FnCtx.Budgeted;
      hide CompForOfHead; hide CompForOfTail;
      ghost var g := CompForOfHead(View(), lay, s.x, s.rhs);
      var h := ForOfHead(s.x, s.rhs);
      WithLoop(LoopCtx(h.end, Some(h.cont), s.name, Some((h.iter, h.guard))), s.body1);
      ForOfTail(h, g);
    }

    // The back edge and the exit point, then the close-and-rethrow handler.
    method ForOfTail(h: HeadRegs, ghost g: Head)
      requires Ready() && h.top < |b.labels|
               && g == Head(g.cx, h.iter, h.guard, h.exc, h.tryStart, h.top, h.cont, h.end)
      modifies this, b
      ensures Goes() && View() == CompForOfTail(old(View()), g)
    {
      hide FunctionBuilder.Ok; hide FnCtx.Budgeted;
      hide Lowering.EmitReg3; hide Lowering.EmitJump; hide Lowering.Bind; hide Caught;
      TailParts(View(), g);
      Bind(h.cont);
      EmitGoto(h.top);
      Bind(h.end);
      ForOfCatch(h, g);
    }

    static lemma TailParts(cx: Ctx, g: Head)
      ensures CompForOfTail(cx, g) ==
              Caught(Lowering.Bind(Lowering.EmitGoto(Lowering.Bind(cx, g.cont), g.top), g.end), g)
    {
      hide Lowering.EmitReg3; hide Lowering.EmitJump; hide Lowering.Bind;
    }

    static function Caught(cx: Ctx, h: Head): Ctx {
      var (cx2, over) := Lowering.NewLabel(cx);
      var cx3 := Lowering.EmitGoto(cx2, over);
      var (cx4, skip) := Lowering.NewLabel(cx3);
      var cx5 := Lowering.EmitJump(cx4, JUMP_IF_TRUE, h.guard, skip);
      var cx6 := Lowering.Bind(Lowering.EmitReg3(cx5, ITERATOR_CLOSE, h.iter, 0, 0), skip);
      var cx7 := Lowering.Bind(Lowering.EmitReg3(cx6, THROW, h.exc, 0, 0), over);
      cx7.(handlers := cx7.handlers + [Handler(h.tryStart, |cx3.items|, |cx3.items|, h.exc)],
           handlerMax := Max(cx7.handlerMax, h.exc + 1))
    }

    method ForOfCatch(h: HeadRegs, ghost g: Head)
      requires Ready() && g == Head(g.cx, h.iter, h.guard, h.exc, h.tryStart, h.top, h.cont, h.end)
      modifies this, b
      ensures Goes() && View() == Caught(old(View()), g)
    {
      hide FunctionBuilder.Ok; hide FnCtx.Budgeted;
      hide Lowering.EmitReg3; hide Lowering.EmitJump; hide Lowering.Bind;
      var over := NewLabel();
      EmitGoto(over);
      var handler := Here();
      var skip := NewLabel();
      EmitJump(JUMP_IF_TRUE, h.guard, skip);
      EmitReg3(ITERATOR_CLOSE, h.iter, 0, 0);
      Bind(skip);
      EmitReg3(THROW, h.exc, 0, 0);
      Bind(over);
      AddHandler(Handler(h.tryStart, handler, handler, h.exc));
    }

    method AddHandler(h: Handler)
      requires Ready()
      modifies this, b
      ensures Goes()
      ensures View() ==
              old(View()).(handlers := old(View()).handlers + [h],
                           handlerMax := Max(old(View()).handlerMax, h.depth + 1))
    {
      b.PushHandler(h);
      handlerMax := Max(handlerMax, h.depth + 1);
    }

    method Here() returns (pc: nat)
      requires Ready()
      ensures pc == |View().items|
    {
      pc := |b.instrs|;
    }

    method ForOfSetup(rhs: Expr)
      returns (iter: nat, result: nat, guard: nat, exc: nat, tryStart: nat, top: nat, cont: nat, end: nat)
      requires Ready()
      modifies this, b
      ensures Goes() && top < |b.labels| && cont < |b.labels| && end < |b.labels|
      ensures (Head(View(), iter, guard, exc, tryStart, top, cont, end), result) ==
              CompForOfSetup(old(View()), lay, rhs)
      decreases rhs, 3
    {
      hide FunctionBuilder.Ok; hide FnCtx.Budgeted;
      hide CompExpr; hide Lowering.NewTemp; hide Lowering.EmitReg3; hide Lowering.LoadBool;
      var r := Expr(rhs);
      iter := NewTemp();
      EmitReg3(GET_ITERATOR, iter, r, 0);
      result := NewTemp();
      top := NewLabel();
      cont := NewLabel();
      end := NewLabel();
      guard, exc := ForOfGuard();
      tryStart := Here();
    }

    // The guard register starts false; exc takes a caught exception.
    method ForOfGuard() returns (guard: nat, exc: nat)
      requires Ready()
      modifies this, b
      ensures Goes()
      ensures var (c1, g) := Lowering.NewTemp(old(View()));
              var (c2, x) := Lowering.NewTemp(Lowering.LoadBool(c1, g, false));
              (View(), guard, exc) == (c2, g, x)
    {
      hide FunctionBuilder.Ok; hide FnCtx.Budgeted; hide Lowering.NewTemp; hide Lowering.LoadBool;
      guard := NewTemp();
      LoadBool(guard, false);
      exc := NewTemp();
    }

    // The registers and labels of a loop head; cx is left to the caller.
    method ForOfHead(x: Sym, rhs: Expr) returns (h: HeadRegs)
      requires Ready()
      modifies this, b
      ensures Goes() && h.top < |b.labels| && h.cont < |b.labels| && h.end < |b.labels|
      ensures CompForOfHead(old(View()), lay, x, rhs) ==
              Head(View(), h.iter, h.guard, h.exc, h.tryStart, h.top, h.cont, h.end)
      decreases rhs, 4
    {
      hide FunctionBuilder.Ok; hide FnCtx.Budgeted;
      hide CompForOfSetup; hide Lowering.EmitReg3; hide Lowering.Bind; hide Lowering.EmitWords; hide CompGetStr;
      hide Lowering.EmitJump; hide Lowering.MoveReg;
      var iter, result, guard, exc, tryStart, top, cont, end := ForOfSetup(rhs);
      Bind(top);
      EmitWords([Instr(LOOP_HEADER, 0, 0, 0)]);
      EmitReg3(ITERATOR_NEXT, result, iter, 0);
      var done := GetStr(result, "done");
      EmitJump(JUMP_IF_TRUE, done, end);
      var value := GetStr(result, "value");
      if RegOf(lay, x) != value { MoveReg(RegOf(lay, x), value); }
      h := HeadRegs(iter, guard, exc, tryStart, top, cont, end);
    }

    // ---- switch -----------------------------------------------------------------

    method SwitchStmt(s: Stmt)
      requires Ready() && s.Switch?
      modifies this, b
      ensures Goes() && View() == CompStmt(old(View()), lay, old(loops), s)
      decreases s, 2
    {
      hide FunctionBuilder.Ok; hide FnCtx.Budgeted;
      hide CompExpr; hide Lowering.Bind; hide Lowering.EmitJump; hide CompTests; hide CompBodies; hide Defaults;
      var d := Expr(s.disc);
      var end := NewLabel();
      if Defaults(s.cases) > 1 { failed := true; return; }
      var deflt := end;
      if Defaults(s.cases) == 1 { deflt := NewLabel(); }
      var entries := SwitchTests(d, s.cases);
      EmitGoto(deflt);
      SwitchScope(s, entries, deflt, end);
    }

    // The bodies, with the switch's own entry on the stack of jump targets.
    method SwitchScope(s: Stmt, entries: seq<nat>, deflt: nat, end: nat)
      requires Ready() && s.Switch? && end < |b.labels|
      modifies this, b
      ensures Goes()
      ensures View() == Lowering.Bind(CompBodies(old(View()), lay, old(loops) + [LoopCtx(end, None, s.name, None)],
                                                 s.cases, entries, deflt), end)
      decreases s, 1
    {
      hide FunctionBuilder.Ok; hide FnCtx.Budgeted; hide Lowering.Bind; hide CompBodies;
      loops := loops + [LoopCtx(end, None, s.name, None)];
      SwitchBodies(s.cases, entries, deflt);
      loops := loops[..|loops| - 1];
      Bind(end);
    }

    method SwitchTests(d: nat, cs: Cases) returns (entries: seq<nat>)
      requires Ready()
      modifies this, b
      ensures Goes() && (View(), entries) == CompTests(old(View()), lay, d, cs)
      decreases cs, 0
    {
      hide FunctionBuilder.Ok; hide FnCtx.Budgeted;
      hide CompExpr; hide Lowering.NewTemp; hide Lowering.EmitReg3; hide Lowering.EmitJump;
      entries := [];
      if cs.Case? {
        if cs.test.None? {
          entries := SwitchTests(d, cs.rest);
        } else {
          var v := Expr(cs.test.value);
          var eq := NewTemp();
          EmitReg3(STRICT_EQ, eq, d, v);
          var entry := NewLabel();
          EmitJump(JUMP_IF_TRUE, eq, entry);
          var more := SwitchTests(d, cs.rest);
          entries := [entry] + more;
        }
      }
    }

    method SwitchBodies(cs: Cases, entries: seq<nat>, deflt: nat)
      requires Ready()
      modifies this, b
      ensures Goes() && View() == CompBodies(old(View()), lay, old(loops), cs, entries, deflt)
      decreases cs, 0
    {
      hide FunctionBuilder.Ok; hide FnCtx.Budgeted;
      hide CompStmts; hide Lowering.Bind;
      if cs.Case? {
        if cs.test.None? {
          Bind(deflt);
          StmtList(cs.body);
          SwitchBodies(cs.rest, entries, deflt);
        } else if entries == [] {
          failed := true;
        } else {
          Bind(entries[0]);
          StmtList(cs.body);
          SwitchBodies(cs.rest, entries[1..], deflt);
        }
      }
    }

    method GetStr(obj: nat, name: string) returns (d: nat)
      requires Ready()
      modifies this, b
      ensures Goes() && (View(), d) == CompGetStr(old(View()), obj, name)
    {
      hide FunctionBuilder.Ok; hide FnCtx.Budgeted;
      hide Lowering.NewTemp; hide Lowering.LoadConst; hide Lowering.EmitReg3;
      var k := NewTemp();
      LoadConst(k, Str(name));
      d := NewTemp();
      EmitReg3(GET_PROPERTY, d, obj, k);
    }

    // ---- finish -----------------------------------------------------------------

    // Register budget, backpatching and the handler order.
    method Finish() returns (code: Code, maxRegs: nat)
      requires Ready() && !failed && |b.items| < 0x1_0000
      requires forall l :: 0 <= l < |b.labels| ==> b.labels[l].Some? && b.labels[l].value <= |b.items|
      modifies b
      ensures code == Assemble(old(View()))
      ensures forall r :: r in handed ==> lay.localsEnd < r < maxRegs
      ensures forall i :: 0 <= i < |code.handlers| ==> code.handlers[i].depth < maxRegs
      ensures lay.localsEnd < maxRegs && highWater <= maxRegs
    {
      var regs := Max(highWater, lay.localsEnd + 1);
      if handlerMax > regs { regs := handlerMax; }
      b.ReserveRegs(regs);
      maxRegs := b.maxRegs;
      var instrs := b.Finish();
      code := Code(instrs, b.consts, SortHandlers(b.handlers));
      forall i | 0 <= i < |code.handlers| ensures code.handlers[i].depth < maxRegs {
        SortElements(b.handlers, code.handlers[i]);
      }
    }
  }

  // A whole function body; a failed lowering or code past the 16-bit window yields none.
  // The budget covers the high-water mark and every handler, so that the validator finds
  // every register the code touches, and everything else about it, in order.
  method CompileFunction(lay: Layout, body: Stmts) returns (r: Option<Code>, maxRegs: nat)
    ensures var F := CompUnit(lay, body);
            r == if !F.failed && |F.items| < 0x1_0000 then Some(Assemble(F)) else None
    ensures r.Some? <==> OfUnit(body).Met(lay.localsEnd + 1) && |CompUnit(lay, body).items| < 0x1_0000
    ensures r.Some? ==> lay.localsEnd < maxRegs && CompUnit(lay, body).high <= maxRegs
    ensures r.Some? ==> forall i :: 0 <= i < |r.value.handlers| ==> r.value.handlers[i].depth < maxRegs
    ensures r.Some? && WfLayout(lay) && WfStmts(lay, body) ==> Accepts(r.value.instrs, |r.value.consts|, maxRegs)
  {
    hide CompStmts; hide FunctionBuilder.Ok; hide WfLayout; hide WfStmts; hide Accepts;
    hide Need.Met; hide OfUnit;
    UnitLowers(lay, body);
    var cx := new FnCtx(lay);
    cx.StmtList(body);
    maxRegs := 0;
    var size := cx.Here();
    if cx.failed || size >= 0x1_0000 { return None, 0; }
    GrowStmts(NewCtx(lay), lay, [], body);
    var code;
    code, maxRegs := cx.Finish();
    r := Some(code);
    if WfLayout(lay) && WfStmts(lay, body) { UnitAccepted(lay, body, maxRegs); }
  }

  datatype HeadRegs = HeadRegs(iter: nat, guard: nat, exc: nat, tryStart: nat, top: nat, cont: nat, end: nat)
}