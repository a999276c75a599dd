/**
 Lowering of expressions and statements to bytecode
 (crates/v12-bccompiler/src/expr.rs, stmt.rs and the emission half of model.rs),
 as functions on the emission context.  `Emitter.FnCtx` is the same lowering in the
 source's imperative form, proved equal to these functions.

 Compile errors are sticky: the first one sets `failed`, and a context that has
 failed never yields a program.
 */
module Lowering {
  import opened Words
  import opened Machine
  import opened Assembly
  import opened Source

  const MAX_REGS: nat := 65535
  const MAX_CONSTANTS: nat := 65535

  // Everything emission changes.  `top` is the next free temporary and `high` one
  // past the highest register touched.
  datatype Ctx = Ctx(
    items: seq<Item>,
    labels: seq<Option<nat>>,
    consts: seq<Val>,
    handlers: seq<Handler>,
    top: nat,
    high: nat,
    handlerMax: nat,
    failed: bool)

  // Storage of a unit's locals: registers 1 .. localsEnd; register localsEnd is
  // reserved and never written, so reading it yields undefined.
  datatype Layout = Layout(vars: map<Sym, nat>, localsEnd: nat)

  // One enclosing loop, switch or labelled statement; a `for-of` also records its
  // iterator register and its close guard.
  datatype LoopCtx = LoopCtx(brk: nat, cont: Option<nat>, name: Option<Source.Label>, iter: Option<(nat, nat)>)

  function NewCtx(lay: Layout): Ctx {
    Ctx([], [], [], [], lay.localsEnd + 1, lay.localsEnd + 1, 0, false)
  }

  function Max(a: nat, b: nat): nat { if a < b then b else a }

  // ---- registers --------------------------------------------------------

  // n consecutive fresh temporaries, the first of which is returned.
  function NewTemps(cx: Ctx, n: nat): (Ctx, nat) {
    if cx.failed then (cx, 0)
    else if cx.top + n > MAX_REGS || cx.top >= MAX_REGS then (cx.(failed := true), 0)
    else (cx.(top := cx.top + n, high := Max(cx.high, cx.top + Max(n, 1))), cx.top)
  }

  function NewTemp(cx: Ctx): (Ctx, nat) { NewTemps(cx, 1) }

  function RegOf(lay: Layout, x: Sym): nat {
    if x in lay.vars then lay.vars[x] else 0
  }

  // ---- words ------------------------------------------------------------

  function Raws(ws: seq<Instr>): (its: seq<Item>)
    ensures |its| == |ws| && forall i :: 0 <= i < |ws| ==> its[i] == Raw(ws[i])
  {
    seq(|ws|, i requires 0 <= i < |ws| => Raw(ws[i]))
  }

  function EmitWords(cx: Ctx, ws: seq<Instr>): Ctx {
    cx.(items := cx.items + Raws(ws))
  }

  function Low8(v: int): Byte { v % 256 }

  function High8(v: nat): Byte { v / 256 % 256 }

  function Prefix(mask: Byte, a: nat, b: nat, c: nat): seq<Instr> {
    [Instr(WIDE, mask, 0, REG_EXT), Instr(0, High8(a), High8(b), High8(c))]
  }

  // The narrow/wide funnel: one word when every operand fits a byte, otherwise a
  // prefix with the high bytes and the word with the low ones.
  function EncodeRegs(op: Opcode, a: nat, b: nat, c: nat, mask: Byte): seq<Instr> {
    if a <= 255 && b <= 255 && c <= 255 then [Instr(op, a, b, c)]
    else Prefix(mask, a, b, c) + [Instr(op, Low8(a), Low8(b), Low8(c))]
  }

  function EmitRegs(cx: Ctx, op: Opcode, a: nat, b: nat, c: nat, mask: Byte): Ctx {
    EmitWords(cx, EncodeRegs(op, a, b, c, mask))
  }

  function EmitReg3(cx: Ctx, op: Opcode, a: nat, b: nat, c: nat): Ctx { EmitRegs(cx, op, a, b, c, 7) }

  function EmitReg2(cx: Ctx, op: Opcode, a: nat, b: nat): Ctx { EmitRegs(cx, op, a, b, 0, 3) }

  function MoveReg(cx: Ctx, dst: nat, src: nat): Ctx { EmitReg2(cx, MOVE, dst, src) }

  function LoadUndefined(cx: Ctx, lay: Layout, dst: nat): Ctx { MoveReg(cx, dst, lay.localsEnd) }

  // Index of the first pooled constant equal to v.
  function FindConst(cs: seq<Val>, v: Val): (k: Option<nat>)
    ensures k.Some? ==> k.value < |cs| && cs[k.value] == v && forall i :: 0 <= i < k.value ==> cs[i] != v
    ensures k.None? <==> v !in cs
  {
    if cs == [] then None
    else
      var rest := FindConst(cs[..|cs| - 1], v);
      if rest.Some? then rest
      else if cs[|cs| - 1] == v then Some(|cs| - 1) else None
  }

  function AddConst(cx: Ctx, v: Val): (Ctx, nat) {
    var k := FindConst(cx.consts, v);
    if k.Some? then (cx, k.value)
    else if |cx.consts| >= MAX_CONSTANTS then (cx.(failed := true), 0)
    else (cx.(consts := cx.consts + [v]), |cx.consts|)
  }

  function LoadConst(cx: Ctx, dst: nat, v: Val): Ctx {
    var (cx1, k) := AddConst(cx, v);
    EmitRegs(cx1, LOAD_CONST, dst, k / 256, k % 256, 1)
  }

  predicate FitsI64(v: int) { -0x8000_0000_0000_0000 <= v < 0x8000_0000_0000_0000 }

  function EncodeIntW(dst: nat, v: int): seq<Instr> {
    var bits := v % 0x1_0000_0000_0000_0000;
    [Instr(WIDE, 0, 0, LOAD_INT_W), OfRaw(bits % 0x1_0000_0000), OfRaw(bits / 0x1_0000_0000),
     OfHiLo(0, dst % 0x1_0000)]
  }

  function LoadInt(cx: Ctx, dst: nat, v: int): Ctx {
    if -128 <= v <= 127 && dst <= 255 then EmitWords(cx, [Instr(LOAD_INT, dst, 0, Low8(v))])
    else EmitWords(cx, EncodeIntW(dst, v))
  }

  // Booleans are materialized by comparing zero with itself.
  function LoadBool(cx: Ctx, dst: nat, v: bool): Ctx {
    var (cx1, t) := NewTemp(cx);
    EmitReg3(LoadInt(cx1, t, 0), if v then EQ else NE, dst, t, t)
  }

  function LoadValue(cx: Ctx, lay: Layout, dst: nat, v: Val): Ctx {
    match v
    case Undefined => LoadUndefined(cx, lay, dst)
    case Bool(b) => LoadBool(cx, dst, b)
    case Num(n) => if n.Int? && FitsI64(n.i) then LoadInt(cx, dst, n.i) else LoadConst(cx, dst, v)
    case _ => LoadConst(cx, dst, v)
  }

  function EncodeCallW(dst: nat, callee: nat, argc: nat): seq<Instr> {
    [Instr(WIDE, 0, 0, CALL_W), OfHiLo(dst % 0x1_0000, callee % 0x1_0000), OfHiLo(0, argc % 0x1_0000)]
  }

  function EmitCall(cx: Ctx, dst: nat, callee: nat, argc: nat): Ctx {
    if argc > 255 then EmitWords(cx, EncodeCallW(dst, callee, argc))
    else EmitRegs(cx, CALL, dst, callee, argc, 3)
  }

  // ---- labels -----------------------------------------------------------

  function NewLabel(cx: Ctx): (Ctx, nat) {
    (cx.(labels := cx.labels + [None]), |cx.labels|)
  }

  function Bind(cx: Ctx, l: nat): Ctx {
    if l < |cx.labels| && cx.labels[l].None? then cx.(labels := cx.labels[l := Some(|cx.items|)])
    else cx.(failed := true)
  }

  // A branch; a condition register past 255 gets a prefix.
  function EmitJump(cx: Ctx, op: Opcode, reg: nat, l: nat): Ctx {
    var cx1 := if reg <= 255 then cx else EmitWords(cx, Prefix(1, reg, 0, 0));
    cx1.(items := cx1.items + [Branch(op, Low8(reg), l)])
  }

  function EmitGoto(cx: Ctx, l: nat): Ctx { EmitJump(cx, JUMP, 0, l) }

  // ---- expressions ------------------------------------------------------

  function CompExpr(cx: Ctx, lay: Layout, e: Expr): (Ctx, nat)
    decreases e
  {
    match e
    case Lit(v) =>
      var (cx1, dst) := NewTemp(cx);
      (LoadValue(cx1, lay, dst, v), dst)
    case Local(x) =>
      var (cx1, dst) := NewTemp(cx);
      (MoveReg(cx1, dst, RegOf(lay, x)), dst)
    case Unary(op, e1) =>
      var (cx1, v) := CompExpr(cx, lay, e1);
      var (cx2, dst) := NewTemp(cx1);
      (EmitReg2(cx2, op, dst, v), dst)
    case Binary(op, a, b) =>
      var (cx1, l) := CompExpr(cx, lay, a);
      var (cx2, r) := CompExpr(cx1, lay, b);
      var (cx3, dst) := NewTemp(cx2);
      (EmitReg3(cx3, op, dst, l, r), dst)
    case ShortCircuit(lop, a, b) =>
      var (cx1, dst) := CompExpr(cx, lay, a);
      var (cx2, end) := NewLabel(cx1);
      var cx3 := CompGuard(cx2, lop, dst, end);
      var (cx4, r) := CompExpr(cx3, lay, b);
      (Bind(MoveReg(cx4, dst, r), end), dst)
    case Cond(t, a, b) =>
      var (cx1, c) := CompExpr(cx, lay, t);
      var (cx2, dst) := NewTemp(cx1);
      var (cx3, elseL) := NewLabel(cx2);
      var (cx4, endL) := NewLabel(cx3);
      var (cx5, x) := CompExpr(EmitJump(cx4, JUMP_IF_FALSE, c, elseL), lay, a);
      var cx6 := Bind(EmitGoto(MoveReg(cx5, dst, x), endL), elseL);
      var (cx7, y) := CompExpr(cx6, lay, b);
      (Bind(MoveReg(cx7, dst, y), endL), dst)
    case Comma(a, b) =>
      var (cx1, _) := CompExpr(cx, lay, a);
      CompExpr(cx1, lay, b)
    case Assign(x, e1) =>
      var (cx1, r) := CompExpr(cx, lay, e1);
      (if RegOf(lay, x) != r then MoveReg(cx1, RegOf(lay, x), r) else cx1, r)
    case Chain(base, links) =>
      var (cx1, exit) := NewLabel(cx);
      var (cx2, dst) := NewTemp(cx1);
      var (cx3, cur) := CompExpr(cx2, lay, base);
      var (cx4, last) := CompLinks(cx3, lay, links, dst, exit, cur, None);
      (Bind(MoveReg(cx4, dst, last), exit), dst)
  }

  // The left value's register doubles as the destination; jump past the right
  // operand when the left one decides.
  function CompGuard(cx: Ctx, lop: Logic, dst: nat, end: nat): Ctx {
    match lop
    case Or => EmitJump(cx, JUMP_IF_TRUE, dst, end)
    case And => EmitJump(cx, JUMP_IF_FALSE, dst, end)
    case Coalesce =>
      var (cx1, t) := CompNullish(cx, dst);
      EmitJump(cx1, JUMP_IF_FALSE, t, end)
  }

  // A register holding whether v is nullish: loose equality with null.
  function CompNullish(cx: Ctx, v: nat): (Ctx, nat) {
    var (cx1, n) := NewTemp(cx);
    var (cx2, t) := NewTemp(LoadConst(cx1, n, Null));
    (EmitReg3(cx2, EQ, t, v, n), t)
  }

  // An optional link: a nullish v leaves the chain with an undefined result.
  function CompExit(cx: Ctx, lay: Layout, v: nat, dst: nat, exit: nat): Ctx {
    var (cx1, t) := CompNullish(cx, v);
    var (cx2, keep) := NewLabel(cx1);
    Bind(EmitGoto(LoadUndefined(EmitJump(cx2, JUMP_IF_FALSE, t, keep), lay, dst), exit), keep)
  }

  function CompLinks(cx: Ctx, lay: Layout, links: Links, dst: nat, exit: nat, cur: nat, recv: Option<nat>): (Ctx, nat)
    decreases links
  {
    match links
    case End => (cx, cur)
    case Member(optional, key, rest) =>
      var cx1 := if optional then CompExit(cx, lay, cur, dst, exit) else cx;
      var (cx2, nxt) := CompMember(cx1, lay, key, cur);
      CompLinks(cx2, lay, rest, dst, exit, nxt, Some(cur))
    case Invoke(optional, args, rest) =>
      var cx1 := if optional then CompExit(cx, lay, cur, dst, exit) else cx;
      var (cx2, w) := CompInvoke(cx1, lay, args, cur, recv);
      CompLinks(cx2, lay, rest, dst, exit, w, None)
  }

  function CompMember(cx: Ctx, lay: Layout, key: Key, cur: nat): (Ctx, nat)
    decreases key, 3
  {
    var (cx1, k) := CompKey(cx, lay, key);
    var (cx2, nxt) := NewTemp(cx1);
    (EmitReg3(cx2, GET_PROPERTY, nxt, cur, k), nxt)
  }

  // Call window: callee, receiver, arguments; the result replaces the callee.
  function CompInvoke(cx: Ctx, lay: Layout, args: Args, cur: nat, recv: Option<nat>): (Ctx, nat)
    decreases args, 3
  {
    var (cx1, w) := NewTemps(cx, CALL_HEADER_REGS + Argc(args));
    var cx2 := MoveReg(cx1, w, cur);
    var cx3 := if recv.Some? then MoveReg(cx2, w + 1, recv.value) else LoadUndefined(cx2, lay, w + 1);
    (EmitCall(CompArgs(cx3, lay, args, w + 2), w, w, Argc(args)), w)
  }

  function Argc(args: Args): nat {
    match args
    case NoArgs => 0
    case Arg(_, rest) => 1 + Argc(rest)
  }

  function CompKey(cx: Ctx, lay: Layout, key: Key): (Ctx, nat)
    decreases key, 2
  {
    match key
    case Static(name) =>
      var (cx1, r) := NewTemp(cx);
      (LoadConst(cx1, r, Str(name)), r)
    case Computed(e) => CompExpr(cx, lay, e)
  }

  function CompArgs(cx: Ctx, lay: Layout, args: Args, slot: nat): Ctx
    decreases args, 2
  {
    match args
    case NoArgs => cx
    case Arg(e, rest) =>
      var (cx1, r) := CompExpr(cx, lay, e);
      CompArgs(if r != slot then MoveReg(cx1, slot, r) else cx1, lay, rest, slot + 1)
  }

  // ---- jumps out of loops -----------------------------------------------

  // The context stack entry a break or continue resolves to: unlabelled jumps
  // look at unnamed entries only.
  predicate Resolves(lc: LoopCtx, want: Option<Source.Label>, isCont: bool) {
    if want.Some? then lc.name == want
    else lc.name.None? && (isCont ==> lc.cont.Some?)
  }

  // The innermost such entry.
  function RPosition(loops: seq<LoopCtx>, want: Option<Source.Label>, isCont: bool): (p: Option<nat>)
    ensures p.Some? ==> p.value < |loops| && Resolves(loops[p.value], want, isCont)
    ensures p.Some? ==> forall i :: p.value < i < |loops| ==> !Resolves(loops[i], want, isCont)
    ensures p.None? ==> forall i :: 0 <= i < |loops| ==> !Resolves(loops[i], want, isCont)
  {
    if loops == [] then None
    else if Resolves(loops[|loops| - 1], want, isCont) then Some(|loops| - 1)
    else RPosition(loops[..|loops| - 1], want, isCont)
  }

  // Arm the guard, then close: the close sits inside the loop's own exception
  // range, and its error must not close a second time.
  function CloseOne(cx: Ctx, it: (nat, nat)): Ctx {
    EmitReg3(LoadBool(cx, it.1, true), ITERATOR_CLOSE, it.0, 1, 0)
  }

  // Closes for every loop being left, innermost (last) first.
  function EmitCloses(cx: Ctx, ls: seq<LoopCtx>): Ctx
    decreases |ls|
  {
    if ls == [] then cx
    else
      var lc := ls[|ls| - 1];
      EmitCloses(if lc.iter.Some? then CloseOne(cx, lc.iter.value) else cx, ls[..|ls| - 1])
  }

  function CompJumpOut(cx: Ctx, loops: seq<LoopCtx>, want: Option<Source.Label>, isCont: bool): Ctx {
    var p := RPosition(loops, want, isCont);
    if p.None? || (isCont && loops[p.value].cont.None?) then cx.(failed := true)
    else if isCont then EmitGoto(EmitCloses(cx, loops[p.value + 1..]), loops[p.value].cont.value)
    else EmitGoto(EmitCloses(cx, loops[p.value..]), loops[p.value].brk)
  }

  // ---- statements -------------------------------------------------------

  function CompStmt(cx: Ctx, lay: Layout, loops: seq<LoopCtx>, s: Stmt): Ctx
    decreases s, 1
  {
    match s
    case Empty => cx
    case ExprStmt(e) => CompExpr(cx, lay, e).0
    case Block(body) => CompStmts(cx, lay, loops, body)
    case If(t, a, b) =>
      var (cx1, c) := CompExpr(cx, lay, t);
      var (cx2, elseL) := NewLabel(cx1);
      var (cx3, endL) := NewLabel(cx2);
      var cx4 := CompStmt(EmitJump(cx3, JUMP_IF_FALSE, c, elseL), lay, loops, a);
      var cx5 := Bind(EmitGoto(cx4, endL), elseL);
      Bind(CompStmt(cx5, lay, loops, b), endL)
    case While(name, t, body) => CompForLoop(cx, lay, loops, name, Some(t), None, s)
    case DoWhile(name, body, t) =>
      var (cx1, top, cont, end) := LoopStart(cx);
      var cx2 := CompStmt(cx1, lay, loops + [LoopCtx(end, Some(cont), name, None)], body);
      var (cx3, c) := CompExpr(Bind(cx2, cont), lay, t);
      Bind(EmitJump(cx3, JUMP_IF_TRUE, c, top), end)
    case For(name, init, test, update, body) =>
      CompForLoop(CompOpt(cx, lay, init), lay, loops, name, test, update, s)
    case ForOf(name, x, rhs, body) =>
      var h := CompForOfHead(cx, lay, x, rhs);
      var cx1 := CompStmt(h.cx, lay, loops + [LoopCtx(h.end, Some(h.cont), name, Some((h.iter, h.guard)))], body);
      CompForOfTail(cx1, h)
    case Labeled(lab, body) =>
      var (cx1, end) := NewLabel(cx);
      Bind(CompStmt(cx1, lay, loops + [LoopCtx(end, None, Some(lab), None)], body), end)
    case Switch(name, disc, cases) =>
      var (cx1, d) := CompExpr(cx, lay, disc);
      var (cx2, end) := NewLabel(cx1);
      if Defaults(cases) > 1 then cx2.(failed := true) else
      var (cx3, deflt) := if Defaults(cases) == 1 then NewLabel(cx2) else (cx2, end);
      var (cx4, entries) := CompTests(cx3, lay, d, cases);
      var cx5 := EmitGoto(cx4, deflt);
      Bind(CompBodies(cx5, lay, loops + [LoopCtx(end, None, name, None)], cases, entries, deflt), end)
    case Break(l) => CompJumpOut(cx, loops, l, false)
    case Continue(l) => CompJumpOut(cx, loops, l, true)
    case Return(arg) =>
      var (cx1, v) := CompReturnValue(cx, lay, arg);
      EmitReg3(EmitCloses(cx1, loops), RETURN, v, 0, 0)
    case Throw(e) =>
      var (cx1, v) := CompExpr(cx, lay, e);
      EmitReg3(cx1, THROW, v, 0, 0)
  }

  // A loop with its test in front: `while`, and `for` past its initializer.
  function CompForLoop(cx: Ctx, lay: Layout, loops: seq<LoopCtx>, name: Option<Source.Label>, test: Option<Expr>,
                       update: Option<Expr>, s: Stmt): Ctx
    requires s.While? || s.For?
    decreases s, 0
  {
    var (cx1, top, cont, end) := LoopStart(cx);
    var cx2 := CompTest(cx1, lay, test, end);
    var cx3 := CompStmt(cx2, lay, loops + [LoopCtx(end, Some(cont), name, None)], s.body1);
    Bind(EmitGoto(CompOpt(Bind(cx3, cont), lay, update), top), end)
  }

  // The labels top, cont and end of a loop, the first bound to the loop header.
  function LoopStart(cx: Ctx): (Ctx, nat, nat, nat) {
    var (cx1, top) := NewLabel(cx);
    var (cx2, cont) := NewLabel(cx1);
    var (cx3, end) := NewLabel(cx2);
    (EmitWords(Bind(cx3, top), [Instr(LOOP_HEADER, 0, 0, 0)]), top, cont, end)
  }

  // An optional expression evaluated for its effects.
  function CompOpt(cx: Ctx, lay: Layout, e: Option<Expr>): Ctx {
    if e.Some? then CompExpr(cx, lay, e.value).0 else cx
  }

  // The test of a `for`; a missing one is true.
  function CompTest(cx: Ctx, lay: Layout, e: Option<Expr>, end: nat): Ctx {
    if e.None? then cx else
    var (cx1, c) := CompExpr(cx, lay, e.value);
    EmitJump(cx1, JUMP_IF_FALSE, c, end)
  }

  function CompReturnValue(cx: Ctx, lay: Layout, arg: Option<Expr>): (Ctx, nat) {
    if arg.Some? then CompExpr(cx, lay, arg.value)
    else
      var (cx1, v) := NewTemp(cx);
      (LoadUndefined(cx1, lay, v), v)
  }

  function CompStmts(cx: Ctx, lay: Layout, loops: seq<LoopCtx>, ss: Stmts): Ctx
    decreases ss, 0
  {
    match ss
    case Nil => cx
    case Cons(s, rest) => CompStmts(CompStmt(cx, lay, loops, s), lay, loops, rest)
  }

  // A `for-of` up to the start of its body.
  datatype Head = Head(cx: Ctx, iter: nat, guard: nat, exc: nat, tryStart: nat, top: nat, cont: nat, end: nat)

  function CompForOfHead(cx: Ctx, lay: Layout, x: Sym, rhs: Expr): Head {
    var h := CompForOfSetup(cx, lay, rhs);
    var (cx1, result) := (h.0.cx, h.1);
    var cx2 := EmitWords(Bind(cx1, h.0.top), [Instr(LOOP_HEADER, 0, 0, 0)]);
    var cx3 := EmitReg3(cx2, ITERATOR_NEXT, result, h.0.iter, 0);
    var (cx4, done) := CompGetStr(cx3, result, "done");
    var cx5 := EmitJump(cx4, JUMP_IF_TRUE, done, h.0.end);
    var (cx6, value) := CompGetStr(cx5, result, "value");
    var cx7 := if RegOf(lay, x) != value then MoveReg(cx6, RegOf(lay, x), value) else cx6;
    h.0.(cx := cx7)
  }

  // Iterator, result, close guard and exception registers, in this order: the
  // guard must lie below the register an exception is delivered to.
  function CompForOfSetup(cx: Ctx, lay: Layout, rhs: Expr): (Head, nat) {
    var (cx1, r) := CompExpr(cx, lay, rhs);
    var (cx2, iter) := NewTemp(cx1);
    var cx3 := EmitReg3(cx2, GET_ITERATOR, iter, r, 0);
    var (cx4, result) := NewTemp(cx3);
    var (cx5, top) := NewLabel(cx4);
    var (cx6, cont) := NewLabel(cx5);
    var (cx7, end) := NewLabel(cx6);
    var (cx8, guard) := NewTemp(cx7);
    var (cx9, exc) := NewTemp(LoadBool(cx8, guard, false));
    (Head(cx9, iter, guard, exc, |cx9.items|, top, cont, end), result)
  }

  // obj[name] into a fresh register.
  function CompGetStr(cx: Ctx, obj: nat, name: string): (Ctx, nat) {
    var (cx1, k) := NewTemp(cx);
    var (cx2, d) := NewTemp(LoadConst(cx1, k, Str(name)));
    (EmitReg3(cx2, GET_PROPERTY, d, obj, k), d)
  }

  // The back edge, the exit jump, and the handler that closes and rethrows.
  function CompForOfTail(cx: Ctx, h: Head): Ctx {
    var cx1 := Bind(EmitGoto(Bind(cx, h.cont), h.top), h.end);
    var (cx2, over) := NewLabel(cx1);
    var cx3 := EmitGoto(cx2, over);
    var (cx4, skip) := NewLabel(cx3);
    var cx5 := EmitJump(cx4, JUMP_IF_TRUE, h.guard, skip);
    var cx6 := Bind(EmitReg3(cx5, ITERATOR_CLOSE, h.iter, 0, 0), skip);
    var cx7 := Bind(EmitReg3(cx6, THROW, h.exc, 0, 0), over);
    cx7.(handlers := cx7.handlers + [Handler(h.tryStart, |cx3.items|, |cx3.items|, h.exc)],
         handlerMax := Max(cx7.handlerMax, h.exc + 1))
  }

  // One equality guard per clause with a test; the entry labels in clause order.
  function CompTests(cx: Ctx, lay: Layout, d: nat, cs: Cases): (Ctx, seq<nat>)
    decreases cs
  {
    match cs
    case NoCase => (cx, [])
    case Case(t, _, rest) =>
      if t.None? then CompTests(cx, lay, d, rest) else
      var (cx1, v) := CompExpr(cx, lay, t.value);
      var (cx2, eq) := NewTemp(cx1);
      var (cx3, entry) := NewLabel(EmitReg3(cx2, STRICT_EQ, eq, d, v));
      var (cx4, es) := CompTests(EmitJump(cx3, JUMP_IF_TRUE, eq, entry), lay, d, rest);
      (cx4, [entry] + es)
  }

  // Clause bodies in source order, each bound to its entry label.
  function CompBodies(cx: Ctx, lay: Layout, loops: seq<LoopCtx>, cs: Cases, entries: seq<nat>, deflt: nat): Ctx
    decreases cs, 0
  {
    match cs
    case NoCase => cx
    case Case(t, body, rest) =>
      if t.None? then
        CompBodies(CompStmts(Bind(cx, deflt), lay, loops, body), lay, loops, rest, entries, deflt)
      else if entries == [] then cx.(failed := true)
      else
        CompBodies(CompStmts(Bind(cx, entries[0]), lay, loops, body), lay, loops, rest, entries[1..], deflt)
  }

  // ---- a whole unit -----------------------------------------------------

  // The order handlers are put in at the end: by start, longer ranges first.
  predicate Before(a: Handler, b: Handler) {
    a.start < b.start || (a.start == b.start && a.end >= b.end)
  }

  // Stable insertion from the right.
  function Insert(h: Handler, hs: seq<Handler>): seq<Handler> {
    if hs == [] || Before(h, hs[0]) then [h] + hs else [hs[0]] + Insert(h, hs[1..])
  }

  function SortHandlers(hs: seq<Handler>): seq<Handler> {
    if hs == [] then [] else Insert(hs[0], SortHandlers(hs[1..]))
  }

  function Assemble(cx: Ctx): Code {
    Code(ResolveAll(cx.items, cx.labels), cx.consts, SortHandlers(cx.handlers))
  }

  function CompUnit(lay: Layout, body: Stmts): Ctx {
    CompStmts(NewCtx(lay), lay, [], body)
  }
}
