/**
 What a unit demands of its compilation: registers, pooled constants, and a target for
 every jump, read off the source tree.  Lowering fails on exactly the units whose demand
 is not met (crates/v12-bccompiler/src/model.rs:910-944 and stmt.rs:1508-1641,
 crates/v12-bytecode/src/lib.rs:125-136).
 */
module Demand {
  import opened Words
  import opened Machine
  import opened Assembly
  import opened Source
  import opened Lowering
  import opened Growth

  // ---- demand -----------------------------------------------------------

  // Temporaries taken, distinct constants pooled, and whether all that was seen is legal.
  datatype Need = Need(temps: nat, pool: set<Val>, legal: bool) {
    function Temps(n: nat): Need { this.(temps := temps + n) }

    function Pools(v: Val): Need { this.(pool := pool + {v}) }

    // Met by a unit whose temporaries start at `from`.
    predicate Met(from: nat) {
      legal && (temps == 0 || from + temps <= MAX_REGS) && |pool| <= MAX_CONSTANTS
    }
  }

  // What a statement puts around its body: its label, whether a `continue` can go there,
  // and whether leaving it closes an iterator.
  datatype Entry = Entry(name: Option<Source.Label>, loop: bool, iterates: bool)

  predicate Answers(en: Entry, want: Option<Source.Label>, isCont: bool) {
    if want.Some? then en.name == want else en.name.None? && (isCont ==> en.loop)
  }

  // The iterators closed by leaving all entries.
  function Iterators(es: seq<Entry>): nat {
    if es == [] then 0 else (if es[|es| - 1].iterates then 1 else 0) + Iterators(es[..|es| - 1])
  }

  // The iterators a jump closes on its way to the innermost entry that answers; none when
  // it has no target.
  function Closed(es: seq<Entry>, want: Option<Source.Label>, isCont: bool): Option<nat> {
    if es == [] then None else
    var en := es[|es| - 1];
    var crossed := if en.iterates then 1 else 0;
    if Answers(en, want, isCont) then (if !isCont then Some(crossed) else if en.loop then Some(0) else None) else
    var more := Closed(es[..|es| - 1], want, isCont);
    if more.Some? then Some(more.value + crossed) else None
  }

  // The demand after an expression, n before it.
  function OfExpr(n: Need, e: Expr): Need
    decreases e
  {
    match e
    case Lit(v) => OfValue(n.Temps(1), v)
    case Local(_) => n.Temps(1)
    case Unary(_, e1) => OfExpr(n, e1).Temps(1)
    case Binary(_, a, b) => OfExpr(OfExpr(n, a), b).Temps(1)
    case ShortCircuit(lop, a, b) => OfExpr(OfGuard(OfExpr(n, a), lop.Coalesce?), b)
    case Cond(t, a, b) => OfExpr(OfExpr(OfExpr(n, t).Temps(1), a), b)
    case Comma(a, b) => OfExpr(OfExpr(n, a), b)
    case Assign(_, e1) => OfExpr(n, e1)
    case Chain(base, links) => OfLinks(OfExpr(n.Temps(1), base), links)
  }

  // Only what neither a move nor an integer load can make is pooled.
  function OfValue(n: Need, v: Val): Need {
    match v
    case Undefined => n
    case Bool(_) => n.Temps(1)
    case Num(x) => if x.Int? && FitsI64(x.i) then n else n.Pools(v)
    case _ => n.Pools(v)
  }

  // A test for null or undefined compares with a pooled null.
  function OfGuard(n: Need, nullish: bool): Need { if nullish then n.Pools(Null).Temps(2) else n }

  function OfLinks(n: Need, links: Links): Need
    decreases links
  {
    match links
    case End => n
    case Member(optional, key, rest) =>
      var k := OfGuard(n, optional);
      OfLinks((if key.Static? then k.Temps(1).Pools(Str(key.name)) else OfExpr(k, key.e)).Temps(1), rest)
    case Invoke(optional, args, rest) =>
      OfLinks(OfArgs(OfGuard(n, optional).Temps(CALL_HEADER_REGS + Argc(args)), args), rest)
  }

  function OfArgs(n: Need, args: Args): Need
    decreases args
  {
    if args.NoArgs? then n else OfArgs(OfExpr(n, args.e), args.rest)
  }

  function OfOpt(n: Need, e: Option<Expr>): Need { if e.Some? then OfExpr(n, e.value) else n }

  function OfJump(n: Need, es: seq<Entry>, want: Option<Source.Label>, isCont: bool): Need {
    var k := Closed(es, want, isCont);
    if k.Some? then n.Temps(k.value) else n.(legal := false)
  }

  function OfGet(n: Need, name: string): Need { n.Temps(2).Pools(Str(name)) }

  // The demand after a statement inside the entries es, innermost last.
  function OfStmt(n: Need, es: seq<Entry>, s: Stmt): Need
    decreases s
  {
    match s
    case Empty => n
    case ExprStmt(e) => OfExpr(n, e)
    case Block(body) => OfStmts(n, es, body)
    case If(t, a, b) => OfStmt(OfStmt(OfExpr(n, t), es, a), es, b)
    case While(name, t, body) => OfStmt(OfExpr(n, t), es + [Entry(name, true, false)], body)
    case DoWhile(name, body, t) => OfExpr(OfStmt(n, es + [Entry(name, true, false)], body), t)
    case For(name, init, test, update, body) =>
      OfOpt(OfStmt(OfOpt(OfOpt(n, init), test), es + [Entry(name, true, false)], body), update)
    case ForOf(name, _, rhs, body) =>
      OfStmt(OfGet(OfGet(OfExpr(n, rhs).Temps(5), "done"), "value"), es + [Entry(name, true, true)], body)
    case Labeled(lab, body) => OfStmt(n, es + [Entry(Some(lab), false, false)], body)
    case Switch(name, disc, cases) =>
      if Defaults(cases) > 1 then OfExpr(n, disc).(legal := false)
      else OfBodies(OfTests(OfExpr(n, disc), cases), es + [Entry(name, false, false)], cases)
    case Break(l) => OfJump(n, es, l, false)
    case Continue(l) => OfJump(n, es, l, true)
    case Return(arg) => (if arg.Some? then OfExpr(n, arg.value) else n.Temps(1)).Temps(Iterators(es))
    case Throw(e) => OfExpr(n, e)
  }

  function OfStmts(n: Need, es: seq<Entry>, ss: Stmts): Need
    decreases ss
  {
    if ss.Nil? then n else OfStmts(OfStmt(n, es, ss.head), es, ss.tail)
  }

  function OfTests(n: Need, cs: Cases): Need
    decreases cs
  {
    if cs.NoCase? then n else OfTests(if cs.test.Some? then OfExpr(n, cs.test.value).Temps(1) else n, cs.rest)
  }

  function OfBodies(n: Need, es: seq<Entry>, cs: Cases): Need
    decreases cs
  {
    if cs.NoCase? then n else OfBodies(OfStmts(n, es, cs.body), es, cs.rest)
  }

  function OfUnit(body: Stmts): Need { OfStmts(Need(0, {}, true), [], body) }

  // ---- the context keeps step with the demand -----------------------------

  function Elements(vs: seq<Val>): set<Val> { set v | v in vs }

  ghost predicate Meets(n: Need, from: nat, f: Ctx) {
    && (f.failed <==> !n.Met(from))
    && (!f.failed ==> f.top == from + n.temps && Elements(f.consts) == n.pool && |f.consts| == |n.pool|)
  }

  // Nothing Meets looks at differs.
  predicate Same(b: Ctx, f: Ctx) { f.failed == b.failed && f.top == b.top && f.consts == b.consts }

  lemma MeetsTemps(n: Need, from: nat, b: Ctx, k: nat)
    requires Meets(n, from, b) && k > 0
    ensures Meets(n.Temps(k), from, NewTemps(b, k).0)
  {
  }

  lemma MeetsConst(n: Need, from: nat, b: Ctx, dst: nat, v: Val)
    requires Meets(n, from, b)
    ensures Meets(n.Pools(v), from, LoadConst(b, dst, v))
  {
    hide EncodeRegs;
    if v in n.pool {
      assert n.pool + {v} == n.pool;
    } else {
      assert |n.pool + {v}| == |n.pool| + 1;
      assert Elements(b.consts + [v]) == Elements(b.consts) + {v};
    }
  }

  lemma MeetsBool(n: Need, from: nat, b: Ctx, dst: nat, v: bool)
    requires Meets(n, from, b)
    ensures Meets(n.Temps(1), from, LoadBool(b, dst, v))
  {
    hide EncodeRegs; hide EncodeIntW;
    MeetsTemps(n, from, b, 1);
  }

  lemma MeetsNullish(n: Need, from: nat, b: Ctx, v: nat)
    requires Meets(n, from, b)
    ensures Meets(OfGuard(n, true), from, CompNullish(b, v).0)
  {
    hide EncodeRegs; hide LoadConst; hide NewTemps;
    MeetsTemps(n, from, b, 1);
    var (b1, r) := NewTemp(b);
    MeetsConst(n.Temps(1), from, b1, r, Null);
    MeetsTemps(n.Temps(1).Pools(Null), from, LoadConst(b1, r, Null), 1);
  }

  lemma MeetsGet(n: Need, from: nat, b: Ctx, obj: nat, name: string)
    requires Meets(n, from, b)
    ensures Meets(OfGet(n, name), from, CompGetStr(b, obj, name).0)
  {
    hide EncodeRegs; hide LoadConst; hide NewTemps;
    MeetsTemps(n, from, b, 1);
    var (b1, r) := NewTemp(b);
    MeetsConst(n.Temps(1), from, b1, r, Str(name));
    MeetsTemps(n.Temps(1).Pools(Str(name)), from, LoadConst(b1, r, Str(name)), 1);
  }

  // An emission that only appends words, and the binding of a label that is not bound.
  lemma SameRegs(b: Ctx, op: Opcode, x: nat, y: nat, z: nat, mask: Byte)
    ensures Same(b, EmitRegs(b, op, x, y, z, mask))
  {
    hide EncodeRegs;
  }

  lemma SameJump(b: Ctx, op: Opcode, reg: nat, l: nat)
    ensures Same(b, EmitJump(b, op, reg, l))
  {
  }

  predicate Free(b: Ctx, l: nat) { !b.failed ==> l < |b.labels| && b.labels[l].None? }

  lemma SameBind(b: Ctx, l: nat)
    requires Free(b, l)
    ensures Same(b, Bind(b, l))
  {
  }

  // A free label stays free across closed emission.
  lemma FreeLater(b: Ctx, f: Ctx, l: nat)
    requires Ext(b, f, {}) && Free(b, l)
    ensures Free(f, l)
  {
  }

  // ---- expressions --------------------------------------------------------

  lemma {:induction false} MeetsExpr(n: Need, from: nat, b: Ctx, lay: Layout, e: Expr)
    requires Meets(n, from, b)
    ensures Meets(OfExpr(n, e), from, CompExpr(b, lay, e).0)
    decreases e, 1
  {
    hide EmitRegs; hide EmitJump; hide LoadValue; hide NewTemps; hide Bind; hide MoveReg; hide Meets;
    match e
    case Lit(v) =>
      MeetsTemps(n, from, b, 1);
      var (b1, dst) := NewTemp(b);
      MeetsValue(n.Temps(1), from, b1, lay, dst, v);
    case Local(x) =>
      MeetsTemps(n, from, b, 1);
      var (b1, dst) := NewTemp(b);
      MeetsMove(n.Temps(1), from, b1, dst, RegOf(lay, x));
    case Unary(op, e1) =>
      MeetsExpr(n, from, b, lay, e1);
      var (b1, v) := CompExpr(b, lay, e1);
      MeetsOp(OfExpr(n, e1), from, b1, op, v, 0, 3);
    case Binary(op, x, y) =>
      MeetsExpr(n, from, b, lay, x);
      var (b1, l) := CompExpr(b, lay, x);
      MeetsExpr(OfExpr(n, x), from, b1, lay, y);
      var (b2, r) := CompExpr(b1, lay, y);
      MeetsOp(OfExpr(OfExpr(n, x), y), from, b2, op, l, r, 7);
    case ShortCircuit(_, _, _) => MeetsLogic(n, from, b, lay, e);
    case Cond(_, _, _) => MeetsCond(n, from, b, lay, e);
    case Comma(x, y) =>
      MeetsExpr(n, from, b, lay, x);
      MeetsExpr(OfExpr(n, x), from, CompExpr(b, lay, x).0, lay, y);
    case Assign(x, e1) =>
      MeetsExpr(n, from, b, lay, e1);
      var (b1, r) := CompExpr(b, lay, e1);
      MeetsMove(OfExpr(n, e1), from, b1, RegOf(lay, x), r);
    case Chain(base, links) =>
      MeetsChain(n, from, b, lay, e);
  }

  lemma MeetsValue(n: Need, from: nat, b: Ctx, lay: Layout, dst: nat, v: Val)
    requires Meets(n, from, b)
    ensures Meets(OfValue(n, v), from, LoadValue(b, lay, dst, v))
  {
    hide EncodeRegs; hide EncodeIntW; hide LoadBool; hide LoadConst;
    MeetsBool(n, from, b, dst, v.Bool? && v.b);
    MeetsConst(n, from, b, dst, v);
  }

  lemma MeetsMove(n: Need, from: nat, b: Ctx, dst: nat, src: nat)
    requires Meets(n, from, b)
    ensures Meets(n, from, MoveReg(b, dst, src))
  {
    hide EncodeRegs;
  }

  lemma MeetsOp(n: Need, from: nat, b: Ctx, op: Opcode, x: nat, y: nat, mask: Byte)
    requires Meets(n, from, b)
    ensures var (b1, dst) := NewTemp(b); Meets(n.Temps(1), from, EmitRegs(b1, op, dst, x, y, mask))
  {
    hide EncodeRegs;
    MeetsTemps(n, from, b, 1);
  }

  lemma {:induction false} MeetsLogic(n: Need, from: nat, b: Ctx, lay: Layout, e: Expr)
    requires e.ShortCircuit? && Meets(n, from, b)
    ensures Meets(OfExpr(n, e), from, CompExpr(b, lay, e).0)
    decreases e, 0
  {
    hide EmitRegs; hide EmitJump; hide Ext; hide CompNullish; hide OfGuard;
    MeetsExpr(n, from, b, lay, e.l);
    var (b1, dst) := CompExpr(b, lay, e.l);
    var n1 := OfExpr(n, e.l);
    var (b2, end) := NewLabel(b1);
    var b3 := CompGuard(b2, e.lop, dst, end);
    MeetsGuard(n1, from, b2, e.lop, dst, end);
    PlainGuard(b2, e.lop, dst, end);
    var n3 := OfGuard(n1, e.lop.Coalesce?);
    MeetsExpr(n3, from, b3, lay, e.r);
    GrowExpr(b3, lay, e.r);
    var (b4, r) := CompExpr(b3, lay, e.r);
    FreeLater(b3, b4, end);
    SameRegs(b4, MOVE, dst, r, 0, 3);
    RegsShape(b4, MOVE, dst, r, 0, 3);
    SameBind(MoveReg(b4, dst, r), end);
  }

  lemma MeetsGuard(n: Need, from: nat, b: Ctx, lop: Logic, dst: nat, end: nat)
    requires Meets(n, from, b)
    ensures Meets(OfGuard(n, lop.Coalesce?), from, CompGuard(b, lop, dst, end))
  {
    hide EmitJump; hide CompNullish;
    MeetsNullish(n, from, b, dst);
    var (b1, t) := CompNullish(b, dst);
    SameJump(b1, JUMP_IF_FALSE, t, end);
    SameJump(b, JUMP_IF_TRUE, dst, end);
    SameJump(b, JUMP_IF_FALSE, dst, end);
  }

  lemma {:induction false} MeetsCond(n: Need, from: nat, b: Ctx, lay: Layout, e: Expr)
    requires e.Cond? && Meets(n, from, b)
    ensures Meets(OfExpr(n, e), from, CompExpr(b, lay, e).0)
    decreases e, 0
  {
    hide EmitRegs; hide EmitJump; hide Ext; hide NewTemps;
    MeetsExpr(n, from, b, lay, e.test);
    var (b1, c) := CompExpr(b, lay, e.test);
    var n1 := OfExpr(n, e.test);
    MeetsTemps(n1, from, b1, 1);
    PlainTemps(b1, 1);
    var (b2, dst) := NewTemp(b1);
    var (b3, elseL) := NewLabel(b2);
    var (b4, endL) := NewLabel(b3);
    var b5 := EmitJump(b4, JUMP_IF_FALSE, c, elseL);
    JumpShape(b4, JUMP_IF_FALSE, c, elseL);
    MeetsExpr(n1.Temps(1), from, b5, lay, e.thn);
    GrowExpr(b5, lay, e.thn);
    var (b6, x) := CompExpr(b5, lay, e.thn);
    var n6 := OfExpr(n1.Temps(1), e.thn);
    FreeLater(b5, b6, elseL);
    FreeLater(b5, b6, endL);
    var b7 := MoveReg(b6, dst, x);
    RegsShape(b6, MOVE, dst, x, 0, 3);
    var b8 := EmitGoto(b7, endL);
    JumpShape(b7, JUMP, 0, endL);
    SameBind(b8, elseL);
    var b9 := Bind(b8, elseL);
    MeetsExpr(n6, from, b9, lay, e.els);
    GrowExpr(b9, lay, e.els);
    var (b10, y) := CompExpr(b9, lay, e.els);
    FreeLater(b9, b10, endL);
    RegsShape(b10, MOVE, dst, y, 0, 3);
    SameBind(MoveReg(b10, dst, y), endL);
  }

  lemma {:induction false} MeetsChain(n: Need, from: nat, b: Ctx, lay: Layout, e: Expr)
    requires e.Chain? && Meets(n, from, b)
    ensures Meets(OfExpr(n, e), from, CompExpr(b, lay, e).0)
    decreases e, 0
  {
    hide EmitRegs; hide Ext; hide NewTemps; hide CompLinks;
    var (b1, exit) := NewLabel(b);
    MeetsTemps(n, from, b1, 1);
    PlainTemps(b1, 1);
    var (b2, dst) := NewTemp(b1);
    MeetsExpr(n.Temps(1), from, b2, lay, e.base);
    GrowExpr(b2, lay, e.base);
    var (b3, cur) := CompExpr(b2, lay, e.base);
    FreeLater(b2, b3, exit);
    MeetsLinks(OfExpr(n.Temps(1), e.base), from, b3, lay, e.links, dst, exit, cur, None);
    GrowLinks(b3, lay, e.links, dst, exit, cur, None);
    var (b4, last) := CompLinks(b3, lay, e.links, dst, exit, cur, None);
    FreeLater(b3, b4, exit);
    RegsShape(b4, MOVE, dst, last, 0, 3);
    SameBind(MoveReg(b4, dst, last), exit);
  }

  lemma MeetsExit(n: Need, from: nat, b: Ctx, lay: Layout, v: nat, dst: nat, exit: nat)
    requires Meets(n, from, b)
    ensures Meets(OfGuard(n, true), from, CompExit(b, lay, v, dst, exit))
  {
    hide EmitRegs; hide EmitJump; hide CompNullish; hide OfGuard;
    MeetsNullish(n, from, b, v);
    PlainNullish(b, v);
    var (b1, t) := CompNullish(b, v);
    var (b2, keep) := NewLabel(b1);
    var b3 := EmitJump(b2, JUMP_IF_FALSE, t, keep);
    JumpShape(b2, JUMP_IF_FALSE, t, keep);
    var b4 := LoadUndefined(b3, lay, dst);
    RegsShape(b3, MOVE, dst, lay.localsEnd, 0, 3);
    JumpShape(b4, JUMP, 0, exit);
    SameBind(EmitGoto(b4, exit), keep);
  }

  lemma {:induction false} MeetsLinks(n: Need, from: nat, b: Ctx, lay: Layout, links: Links, dst: nat, exit: nat,
                                      cur: nat, recv: Option<nat>)
    requires Meets(n, from, b)
    ensures Meets(OfLinks(n, links), from, CompLinks(b, lay, links, dst, exit, cur, recv).0)
    decreases links, 0
  {
    hide CompExit; hide CompMember; hide CompInvoke; hide Meets; hide OfGuard;
    if !links.End? {
      MeetsExit(n, from, b, lay, cur, dst, exit);
      var b1 := if links.optional then CompExit(b, lay, cur, dst, exit) else b;
      var n1 := OfGuard(n, links.optional);
      assert Meets(n1, from, b1) by { assert OfGuard(n, false) == n by { GuardOff(n); } }
      if links.Member? {
        MeetsMember(n1, from, b1, lay, links.key, cur);
        var (b2, nxt) := CompMember(b1, lay, links.key, cur);
        var k := if links.key.Static? then n1.Temps(1).Pools(Str(links.key.name)) else OfExpr(n1, links.key.e);
        MeetsLinks(k.Temps(1), from, b2, lay, links.rest, dst, exit, nxt, Some(cur));
      } else {
        MeetsInvoke(n1, from, b1, lay, links.args, cur, recv);
        var (b2, w) := CompInvoke(b1, lay, links.args, cur, recv);
        MeetsLinks(OfArgs(n1.Temps(CALL_HEADER_REGS + Argc(links.args)), links.args), from, b2, lay, links.rest, dst,
                   exit, w, None);
      }
    }
  }

  lemma GuardOff(n: Need)
    ensures OfGuard(n, false) == n
  {
  }

  lemma {:induction false} MeetsMember(n: Need, from: nat, b: Ctx, lay: Layout, key: Key, cur: nat)
    requires Meets(n, from, b)
    ensures var k := if key.Static? then n.Temps(1).Pools(Str(key.name)) else OfExpr(n, key.e);
            Meets(k.Temps(1), from, CompMember(b, lay, key, cur).0)
    decreases key, 4
  {
    hide EmitRegs; hide LoadConst; hide NewTemps; hide Meets;
    var (b1, k) := CompKey(b, lay, key);
    if key.Static? {
      MeetsTemps(n, from, b, 1);
      var (b0, r) := NewTemp(b);
      MeetsConst(n.Temps(1), from, b0, r, Str(key.name));
      MeetsOp(n.Temps(1).Pools(Str(key.name)), from, b1, GET_PROPERTY, cur, k, 7);
    } else {
      MeetsExpr(n, from, b, lay, key.e);
      MeetsOp(OfExpr(n, key.e), from, b1, GET_PROPERTY, cur, k, 7);
    }
  }

  lemma {:induction false} MeetsInvoke(n: Need, from: nat, b: Ctx, lay: Layout, args: Args, cur: nat, recv: Option<nat>)
    requires Meets(n, from, b)
    ensures Meets(OfArgs(n.Temps(CALL_HEADER_REGS + Argc(args)), args), from, CompInvoke(b, lay, args, cur, recv).0)
    decreases args, 4
  {
    hide EncodeRegs; hide EncodeCallW; hide NewTemps; hide CompArgs; hide Argc; hide Meets; hide MoveReg; hide EmitCall;
    var argc := Argc(args);
    MeetsTemps(n, from, b, CALL_HEADER_REGS + argc);
    var n1 := n.Temps(CALL_HEADER_REGS + argc);
    var (b1, w) := NewTemps(b, CALL_HEADER_REGS + argc);
    MeetsMove(n1, from, b1, w, cur);
    var b2 := MoveReg(b1, w, cur);
    var src := if recv.Some? then recv.value else lay.localsEnd;
    MeetsMove(n1, from, b2, w + 1, src);
    var b3 := MoveReg(b2, w + 1, src);
    MeetsArgs(n1, from, b3, lay, args, w + 2);
    MeetsCall(OfArgs(n1, args), from, CompArgs(b3, lay, args, w + 2), w, w, argc);
  }

  lemma MeetsCall(n: Need, from: nat, b: Ctx, dst: nat, callee: nat, argc: nat)
    requires Meets(n, from, b)
    ensures Meets(n, from, EmitCall(b, dst, callee, argc))
  {
    hide EncodeRegs; hide EncodeCallW;
  }

  lemma {:induction false} MeetsArgs(n: Need, from: nat, b: Ctx, lay: Layout, args: Args, slot: nat)
    requires Meets(n, from, b)
    ensures Meets(OfArgs(n, args), from, CompArgs(b, lay, args, slot))
    decreases args, 0
  {
    hide MoveReg; hide Meets;
    if args.Arg? {
      MeetsExpr(n, from, b, lay, args.e);
      var (b1, r) := CompExpr(b, lay, args.e);
      MeetsMove(OfExpr(n, args.e), from, b1, slot, r);
      MeetsArgs(OfExpr(n, args.e), from, if r != slot then MoveReg(b1, slot, r) else b1, lay, args.rest, slot + 1);
    }
  }

  // ---- jumps ----------------------------------------------------------------

  function EntryOf(lc: LoopCtx): Entry { Entry(lc.name, lc.cont.Some?, lc.iter.Some?) }

  ghost predicate Shows(loops: seq<LoopCtx>, es: seq<Entry>) {
    |es| == |loops| && forall i :: 0 <= i < |es| ==> es[i] == EntryOf(loops[i])
  }

  lemma {:induction false} MeetsCloses(n: Need, from: nat, b: Ctx, ls: seq<LoopCtx>, es: seq<Entry>)
    requires Meets(n, from, b) && Shows(ls, es)
    ensures Meets(n.Temps(Iterators(es)), from, EmitCloses(b, ls))
    decreases |ls|
  {
    hide EmitRegs; hide LoadBool;
    if ls != [] {
      var (lc, en) := (ls[|ls| - 1], es[|es| - 1]);
      if lc.iter.Some? {
        MeetsBool(n, from, b, lc.iter.value.1, true);
        SameRegs(LoadBool(b, lc.iter.value.1, true), ITERATOR_CLOSE, lc.iter.value.0, 1, 0, 7);
        MeetsCloses(n.Temps(1), from, CloseOne(b, lc.iter.value), ls[..|ls| - 1], es[..|es| - 1]);
      } else {
        MeetsCloses(n, from, b, ls[..|ls| - 1], es[..|es| - 1]);
      }
    }
  }

  // The entries a jump leaves, in terms of the stack emission keeps.
  lemma {:induction false} ClosedLeft(loops: seq<LoopCtx>, es: seq<Entry>, want: Option<Source.Label>, isCont: bool)
    requires Shows(loops, es)
    ensures var p := RPosition(loops, want, isCont);
            Closed(es, want, isCont) ==
            if p.None? || (isCont && loops[p.value].cont.None?) then None
            else Some(Iterators(es[if isCont then p.value + 1 else p.value..]))
    decreases |es|
  {
    hide Iterators;
    if es != [] {
      var k := |es| - 1;
      var p := RPosition(loops, want, isCont);
      if Resolves(loops[k], want, isCont) {
        LastLeft(es, k);
      } else {
        ClosedLeft(loops[..k], es[..k], want, isCont);
        if p.Some? { LastLeft(es, if isCont then p.value + 1 else p.value); }
      }
    }
  }

  lemma LastLeft(es: seq<Entry>, from: nat)
    requires from < |es|
    ensures Iterators(es[from..]) == (if es[|es| - 1].iterates then 1 else 0) + Iterators(es[..|es| - 1][from..])
    ensures Iterators(es[|es|..]) == Iterators(es[..|es| - 1][|es| - 1..]) == 0
  {
    assert es[from..][..|es| - 1 - from] == es[..|es| - 1][from..];
  }

  lemma MeetsJumpOut(n: Need, from: nat, b: Ctx, loops: seq<LoopCtx>, es: seq<Entry>, want: Option<Source.Label>,
                     isCont: bool)
    requires Meets(n, from, b) && Shows(loops, es)
    ensures Meets(OfJump(n, es, want, isCont), from, CompJumpOut(b, loops, want, isCont))
  {
    hide EmitCloses; hide EmitJump; hide Iterators; hide RPosition;
    ClosedLeft(loops, es, want, isCont);
    var p := RPosition(loops, want, isCont);
    if !(p.None? || (isCont && loops[p.value].cont.None?)) {
      var k := if isCont then p.value + 1 else p.value;
      MeetsCloses(n, from, b, loops[k..], es[k..]);
      SameJump(EmitCloses(b, loops[k..]), JUMP, 0, if isCont then loops[p.value].cont.value else loops[p.value].brk);
    }
  }

  // ---- statements -------------------------------------------------------------

  lemma MeetsOpt(n: Need, from: nat, b: Ctx, lay: Layout, e: Option<Expr>)
    requires Meets(n, from, b)
    ensures Meets(OfOpt(n, e), from, CompOpt(b, lay, e))
  {
    hide Meets; hide CompExpr; hide OfExpr;
    if e.Some? { MeetsExpr(n, from, b, lay, e.value); }
  }

  lemma MeetsTest(n: Need, from: nat, b: Ctx, lay: Layout, e: Option<Expr>, end: nat)
    requires Meets(n, from, b)
    ensures Meets(OfOpt(n, e), from, CompTest(b, lay, e, end))
  {
    hide CompExpr; hide OfExpr; hide EmitJump;
    if e.Some? {
      MeetsExpr(n, from, b, lay, e.value);
      var (b1, c) := CompExpr(b, lay, e.value);
      SameJump(b1, JUMP_IF_FALSE, c, end);
    }
  }

  lemma {:induction false} MeetsStmt(n: Need, from: nat, b: Ctx, lay: Layout, loops: seq<LoopCtx>, es: seq<Entry>,
                                     s: Stmt)
    requires Meets(n, from, b) && Shows(loops, es)
    ensures Meets(OfStmt(n, es, s), from, CompStmt(b, lay, loops, s))
    decreases s, 2
  {
    hide Meets; hide EmitRegs; hide CompExpr; hide EmitCloses; hide CompReturnValue; hide CompJumpOut; hide CompForLoop;
    hide CompOpt; hide OfExpr; hide Iterators; hide OfJump; hide Bind;
    match s
    case Empty =>
    case ExprStmt(e) => MeetsExpr(n, from, b, lay, e);
    case Block(body) => MeetsStmts(n, from, b, lay, loops, es, body);
    case If(_, _, _) => MeetsIf(n, from, b, lay, loops, es, s);
    case While(name, t, _) => MeetsForLoop(n, from, b, lay, loops, es, name, Some(t), None, s);
    case DoWhile(_, _, _) => MeetsDoWhile(n, from, b, lay, loops, es, s);
    case For(name, init, test, update, _) =>
      MeetsOpt(n, from, b, lay, init);
      MeetsForLoop(OfOpt(n, init), from, CompOpt(b, lay, init), lay, loops, es, name, test, update, s);
    case ForOf(_, _, _, _) => MeetsForOf(n, from, b, lay, loops, es, s);
    case Labeled(_, _) => MeetsLabeled(n, from, b, lay, loops, es, s);
    case Switch(_, _, _) => MeetsSwitch(n, from, b, lay, loops, es, s);
    case Break(l) => MeetsJumpOut(n, from, b, loops, es, l, false);
    case Continue(l) => MeetsJumpOut(n, from, b, loops, es, l, true);
    case Return(arg) => MeetsReturn(n, from, b, lay, loops, es, s);
    case Throw(e) =>
      MeetsExpr(n, from, b, lay, e);
      var (b1, v) := CompExpr(b, lay, e);
      MeetsRegs(OfExpr(n, e), from, b1, THROW, v, 0, 0);
  }

  lemma MeetsRegs(n: Need, from: nat, b: Ctx, op: Opcode, x: nat, y: nat, z: nat)
    requires Meets(n, from, b)
    ensures Meets(n, from, EmitReg3(b, op, x, y, z))
  {
    hide EncodeRegs;
  }

  lemma MeetsReturn(n: Need, from: nat, b: Ctx, lay: Layout, loops: seq<LoopCtx>, es: seq<Entry>, s: Stmt)
    requires s.Return? && Meets(n, from, b) && Shows(loops, es)
    ensures Meets(OfStmt(n, es, s), from, CompStmt(b, lay, loops, s))
  {
    hide Meets; hide EmitRegs; hide CompExpr; hide EmitCloses; hide OfExpr; hide Iterators; hide NewTemps; hide MoveReg;
    var (b1, v) := CompReturnValue(b, lay, s.arg);
    var n1 := if s.arg.Some? then OfExpr(n, s.arg.value) else n.Temps(1);
    if s.arg.Some? {
      MeetsExpr(n, from, b, lay, s.arg.value);
    } else {
      MeetsTemps(n, from, b, 1);
      MeetsMove(n1, from, NewTemp(b).0, v, lay.localsEnd);
    }
    MeetsCloses(n1, from, b1, loops, es);
    MeetsRegs(n1.Temps(Iterators(es)), from, EmitCloses(b1, loops), RETURN, v, 0, 0);
  }

  lemma {:induction false} MeetsStmts(n: Need, from: nat, b: Ctx, lay: Layout, loops: seq<LoopCtx>, es: seq<Entry>,
                                      ss: Stmts)
    requires Meets(n, from, b) && Shows(loops, es)
    ensures Meets(OfStmts(n, es, ss), from, CompStmts(b, lay, loops, ss))
    decreases ss, 0
  {
    hide Meets; hide CompStmt; hide OfStmt;
    if ss.Cons? {
      MeetsStmt(n, from, b, lay, loops, es, ss.head);
      MeetsStmts(OfStmt(n, es, ss.head), from, CompStmt(b, lay, loops, ss.head), lay, loops, es, ss.tail);
    }
  }

  lemma {:induction false} MeetsLabeled(n: Need, from: nat, b: Ctx, lay: Layout, loops: seq<LoopCtx>, es: seq<Entry>,
                                        s: Stmt)
    requires s.Labeled? && Meets(n, from, b) && Shows(loops, es)
    ensures Meets(OfStmt(n, es, s), from, CompStmt(b, lay, loops, s))
    decreases s, 1
  {
    hide Ext;
    var (b1, end) := NewLabel(b);
    var loops1 := loops + [LoopCtx(end, None, Some(s.lab), None)];
    MeetsStmt(n, from, b1, lay, loops1, es + [Entry(Some(s.lab), false, false)], s.body1);
    GrowStmt(b1, lay, loops1, s.body1);
    var b2 := CompStmt(b1, lay, loops1, s.body1);
    FreeLater(b1, b2, end);
    SameBind(b2, end);
  }

  lemma {:induction false} MeetsIf(n: Need, from: nat, b: Ctx, lay: Layout, loops: seq<LoopCtx>, es: seq<Entry>,
                                   s: Stmt)
    requires s.If? && Meets(n, from, b) && Shows(loops, es)
    ensures Meets(OfStmt(n, es, s), from, CompStmt(b, lay, loops, s))
    decreases s, 1
  {
    hide Ext; hide CompExpr; hide EmitJump; hide OfExpr;
    MeetsExpr(n, from, b, lay, s.test);
    var n1 := OfExpr(n, s.test);
    var (b1, c) := CompExpr(b, lay, s.test);
    var (b2, elseL) := NewLabel(b1);
    var (b3, endL) := NewLabel(b2);
    var b4 := EmitJump(b3, JUMP_IF_FALSE, c, elseL);
    JumpShape(b3, JUMP_IF_FALSE, c, elseL);
    MeetsStmt(n1, from, b4, lay, loops, es, s.thn);
    GrowStmt(b4, lay, loops, s.thn);
    var b5 := CompStmt(b4, lay, loops, s.thn);
    FreeLater(b4, b5, elseL);
    FreeLater(b4, b5, endL);
    var b6 := EmitGoto(b5, endL);
    JumpShape(b5, JUMP, 0, endL);
    var b7 := Bind(b6, elseL);
    MeetsStmt(OfStmt(n1, es, s.thn), from, b7, lay, loops, es, s.els);
    GrowStmt(b7, lay, loops, s.els);
    FreeLater(b7, CompStmt(b7, lay, loops, s.els), endL);
    SameBind(CompStmt(b7, lay, loops, s.els), endL);
  }

  // The labels of a loop head: the first bound, the others free.
  lemma StartShape(b: Ctx)
    ensures var (f, top, cont, end) := LoopStart(b);
            Same(b, f) && Free(f, cont) && Free(f, end) && cont != end
  {
  }

  lemma {:induction false} MeetsDoWhile(n: Need, from: nat, b: Ctx, lay: Layout, loops: seq<LoopCtx>, es: seq<Entry>,
                                        s: Stmt)
    requires s.DoWhile? && Meets(n, from, b) && Shows(loops, es)
    ensures Meets(OfStmt(n, es, s), from, CompStmt(b, lay, loops, s))
    decreases s, 1
  {
    hide Ext; hide CompExpr; hide EmitJump; hide LoopStart; hide OfExpr;
    StartShape(b);
    var (b1, top, cont, end) := LoopStart(b);
    var loops1 := loops + [LoopCtx(end, Some(cont), s.name, None)];
    var es1 := es + [Entry(s.name, true, false)];
    MeetsStmt(n, from, b1, lay, loops1, es1, s.body1);
    GrowStmt(b1, lay, loops1, s.body1);
    var b2 := CompStmt(b1, lay, loops1, s.body1);
    FreeLater(b1, b2, cont);
    FreeLater(b1, b2, end);
    var b3 := Bind(b2, cont);
    MeetsExpr(OfStmt(n, es1, s.body1), from, b3, lay, s.test);
    GrowExpr(b3, lay, s.test);
    var (b4, c) := CompExpr(b3, lay, s.test);
    FreeLater(b3, b4, end);
    JumpShape(b4, JUMP_IF_TRUE, c, top);
    SameBind(EmitJump(b4, JUMP_IF_TRUE, c, top), end);
  }

  lemma {:induction false} MeetsForLoop(n: Need, from: nat, b: Ctx, lay: Layout, loops: seq<LoopCtx>, es: seq<Entry>,
                                        name: Option<Source.Label>, test: Option<Expr>, update: Option<Expr>, s: Stmt)
    requires (s.While? || s.For?) && Meets(n, from, b) && Shows(loops, es)
    ensures Meets(OfOpt(OfStmt(OfOpt(n, test), es + [Entry(name, true, false)], s.body1), update), from,
                  CompForLoop(b, lay, loops, name, test, update, s))
    decreases s, 1
  {
    hide Ext; hide CompOpt; hide CompTest; hide EmitJump; hide LoopStart; hide OfOpt;
    StartShape(b);
    var (b1, top, cont, end) := LoopStart(b);
    MeetsTest(n, from, b1, lay, test, end);
    GrowTest(b1, lay, test, end);
    var b2 := CompTest(b1, lay, test, end);
    FreeLater(b1, b2, cont);
    FreeLater(b1, b2, end);
    var loops1 := loops + [LoopCtx(end, Some(cont), name, None)];
    var es1 := es + [Entry(name, true, false)];
    MeetsStmt(OfOpt(n, test), from, b2, lay, loops1, es1, s.body1);
    GrowStmt(b2, lay, loops1, s.body1);
    var b3 := CompStmt(b2, lay, loops1, s.body1);
    FreeLater(b2, b3, cont);
    FreeLater(b2, b3, end);
    var b4 := Bind(b3, cont);
    MeetsOpt(OfStmt(OfOpt(n, test), es1, s.body1), from, b4, lay, update);
    GrowOpt(b4, lay, update);
    var b5 := CompOpt(b4, lay, update);
    FreeLater(b4, b5, end);
    JumpShape(b5, JUMP, 0, top);
    SameBind(EmitGoto(b5, top), end);
  }

  // ---- for-of -------------------------------------------------------------------

  lemma MeetsSetup(n: Need, from: nat, b: Ctx, lay: Layout, rhs: Expr)
    requires Meets(n, from, b)
    ensures Meets(OfExpr(n, rhs).Temps(5), from, CompForOfSetup(b, lay, rhs).0.cx)
  {
    hide CompExpr; hide EmitRegs; hide LoadBool; hide NewTemps; hide OfExpr;
    MeetsExpr(n, from, b, lay, rhs);
    var n1 := OfExpr(n, rhs);
    var (b1, r) := CompExpr(b, lay, rhs);
    MeetsTemps(n1, from, b1, 1);
    var (b2, iter) := NewTemp(b1);
    SameRegs(b2, GET_ITERATOR, iter, r, 0, 7);
    var b3 := EmitReg3(b2, GET_ITERATOR, iter, r, 0);
    MeetsTemps(n1.Temps(1), from, b3, 1);
    var b4 := NewTemp(b3).0;
    var b7 := NewLabel(NewLabel(NewLabel(b4).0).0).0;
    MeetsTemps(n1.Temps(2), from, b7, 1);
    var (b8, guard) := NewTemp(b7);
    MeetsBool(n1.Temps(3), from, b8, guard, false);
    MeetsTemps(n1.Temps(4), from, LoadBool(b8, guard, false), 1);
  }

  lemma MeetsHead(n: Need, from: nat, b: Ctx, lay: Layout, x: Sym, rhs: Expr)
    requires Meets(n, from, b)
    ensures Meets(OfGet(OfGet(OfExpr(n, rhs).Temps(5), "done"), "value"), from, CompForOfHead(b, lay, x, rhs).cx)
  {
    hide Ext; hide CompForOfSetup; hide EmitRegs; hide CompGetStr; hide EmitJump; hide OfGet; hide OfExpr;
    MeetsSetup(n, from, b, lay, rhs);
    GrowSetup(b, lay, rhs);
    var n1 := OfExpr(n, rhs).Temps(5);
    var (h, result) := CompForOfSetup(b, lay, rhs);
    SameBind(h.cx, h.top);
    var b2 := EmitWords(Bind(h.cx, h.top), [Instr(LOOP_HEADER, 0, 0, 0)]);
    SameRegs(b2, ITERATOR_NEXT, result, h.iter, 0, 7);
    var b3 := EmitReg3(b2, ITERATOR_NEXT, result, h.iter, 0);
    MeetsGet(n1, from, b3, result, "done");
    var (b4, done) := CompGetStr(b3, result, "done");
    SameJump(b4, JUMP_IF_TRUE, done, h.end);
    var b5 := EmitJump(b4, JUMP_IF_TRUE, done, h.end);
    MeetsGet(OfGet(n1, "done"), from, b5, result, "value");
    var (b6, value) := CompGetStr(b5, result, "value");
    SameRegs(b6, MOVE, RegOf(lay, x), value, 0, 3);
  }

  lemma MeetsTail(n: Need, from: nat, b: Ctx, h: Head)
    requires Meets(n, from, b) && Free(b, h.cont) && Free(b, h.end) && h.cont != h.end
    ensures Meets(n, from, CompForOfTail(b, h))
  {
    hide EmitRegs; hide EmitJump;
    var b1 := Bind(b, h.cont);
    JumpShape(b1, JUMP, 0, h.top);
    var b3 := Bind(EmitGoto(b1, h.top), h.end);
    var (b4, over) := NewLabel(b3);
    JumpShape(b4, JUMP, 0, over);
    var (b6, skip) := NewLabel(EmitGoto(b4, over));
    JumpShape(b6, JUMP_IF_TRUE, h.guard, skip);
    var b7 := EmitJump(b6, JUMP_IF_TRUE, h.guard, skip);
    RegsShape(b7, ITERATOR_CLOSE, h.iter, 0, 0, 7);
    var b9 := Bind(EmitReg3(b7, ITERATOR_CLOSE, h.iter, 0, 0), skip);
    RegsShape(b9, THROW, h.exc, 0, 0, 7);
    SameBind(EmitReg3(b9, THROW, h.exc, 0, 0), over);
  }

  lemma {:induction false} MeetsForOf(n: Need, from: nat, b: Ctx, lay: Layout, loops: seq<LoopCtx>, es: seq<Entry>,
                                      s: Stmt)
    requires s.ForOf? && Meets(n, from, b) && Shows(loops, es)
    ensures Meets(OfStmt(n, es, s), from, CompStmt(b, lay, loops, s))
    decreases s, 1
  {
    hide Ext; hide CompForOfHead; hide CompForOfTail; hide OfGet; hide OfExpr;
    MeetsHead(n, from, b, lay, s.x, s.rhs);
    GrowHead(b, lay, s.x, s.rhs);
    var h := CompForOfHead(b, lay, s.x, s.rhs);
    var loops1 := loops + [LoopCtx(h.end, Some(h.cont), s.name, Some((h.iter, h.guard)))];
    var n1 := OfGet(OfGet(OfExpr(n, s.rhs).Temps(5), "done"), "value");
    MeetsStmt(n1, from, h.cx, lay, loops1, es + [Entry(s.name, true, true)], s.body1);
    GrowStmt(h.cx, lay, loops1, s.body1);
    var b1 := CompStmt(h.cx, lay, loops1, s.body1);
    FreeLater(h.cx, b1, h.cont);
    FreeLater(h.cx, b1, h.end);
    MeetsTail(OfStmt(n1, es + [Entry(s.name, true, true)], s.body1), from, b1, h);
  }

  // ---- switch -------------------------------------------------------------------

  // Entry labels still to be bound, each once.
  ghost predicate AllFree(b: Ctx, es: seq<nat>) {
    !b.failed ==>
      && (forall i :: 0 <= i < |es| ==> Free(b, es[i]))
      && (forall i, j :: 0 <= i < j < |es| ==> es[i] != es[j])
  }

  lemma {:induction false} MeetsTests(n: Need, from: nat, b: Ctx, lay: Layout, d: nat, cs: Cases)
    requires Meets(n, from, b)
    ensures var (f, es) := CompTests(b, lay, d, cs);
            && Meets(OfTests(n, cs), from, f) && AllFree(f, es)
            && (!f.failed ==> |b.labels| <= |f.labels| && forall i :: 0 <= i < |es| ==> |b.labels| <= es[i])
    decreases cs
  {
    hide Ext; hide CompExpr; hide EmitRegs; hide EmitJump; hide NewTemps; hide OfExpr;
    if cs.Case? {
      if cs.test.None? {
        MeetsTests(n, from, b, lay, d, cs.rest);
      } else {
        MeetsExpr(n, from, b, lay, cs.test.value);
        GrowExpr(b, lay, cs.test.value);
        var n1 := OfExpr(n, cs.test.value);
        var (b1, v) := CompExpr(b, lay, cs.test.value);
        ExtTop(b, b1);
        MeetsTemps(n1, from, b1, 1);
        PlainTemps(b1, 1);
        var (b2, eq) := NewTemp(b1);
        RegsShape(b2, STRICT_EQ, eq, d, v, 7);
        var (b4, entry) := NewLabel(EmitReg3(b2, STRICT_EQ, eq, d, v));
        var b5 := EmitJump(b4, JUMP_IF_TRUE, eq, entry);
        JumpShape(b4, JUMP_IF_TRUE, eq, entry);
        MeetsTests(n1.Temps(1), from, b5, lay, d, cs.rest);
        GrowTests(b5, lay, d, cs.rest);
        var (f, es) := CompTests(b5, lay, d, cs.rest);
        ExtLabels(b5, f, set l | l in es);
      }
    }
  }

  // Bodies bind their entries and the default label, and leave `keep` alone.
  lemma {:induction false} MeetsBodies(n: Need, from: nat, b: Ctx, lay: Layout, loops: seq<LoopCtx>, es: seq<Entry>,
                                       cs: Cases, entries: seq<nat>, deflt: nat, keep: nat)
    requires Meets(n, from, b) && Shows(loops, es) && Defaults(cs) <= 1 && |entries| == TestCount(cs)
    requires AllFree(b, entries) && Free(b, keep) && (keep in entries ==> b.failed)
    requires Defaults(cs) == 1 ==> Free(b, deflt) && deflt != keep && (deflt in entries ==> b.failed)
    ensures var f := CompBodies(b, lay, loops, cs, entries, deflt); Meets(OfBodies(n, es, cs), from, f) && Free(f, keep)
    decreases cs, 0
  {
    hide Ext; hide CompStmts; hide Meets; hide OfStmts;
    if cs.Case? {
      var l := if cs.test.None? then deflt else entries[0];
      var more := if cs.test.None? then entries else entries[1..];
      var b1 := Bind(b, l);
      SameBind(b, l);
      assert Meets(n, from, b1) by { MeetsSame(n, from, b, b1); }
      MeetsStmts(n, from, b1, lay, loops, es, cs.body);
      GrowStmts(b1, lay, loops, cs.body);
      var b2 := CompStmts(b1, lay, loops, cs.body);
      ExtTop(b1, b2);
      forall m | Free(b, m) && (m != l || b.failed) ensures Free(b2, m) { FreeLater(b1, b2, m); }
      MeetsBodies(OfStmts(n, es, cs.body), from, b2, lay, loops, es, cs.rest, more, deflt, keep);
    }
  }

  lemma MeetsSame(n: Need, from: nat, b: Ctx, f: Ctx)
    requires Meets(n, from, b) && Same(b, f)
    ensures Meets(n, from, f)
  {
  }

  lemma {:induction false} MeetsSwitch(n: Need, from: nat, b: Ctx, lay: Layout, loops: seq<LoopCtx>, es: seq<Entry>,
                                       s: Stmt)
    requires s.Switch? && Meets(n, from, b) && Shows(loops, es)
    ensures Meets(OfStmt(n, es, s), from, CompStmt(b, lay, loops, s))
    decreases s, 1
  {
    hide Ext; hide CompExpr; hide CompTests; hide CompBodies; hide EmitJump; hide OfExpr; hide OfTests; hide OfBodies;
    MeetsExpr(n, from, b, lay, s.disc);
    var n1 := OfExpr(n, s.disc);
    var (b1, d) := CompExpr(b, lay, s.disc);
    var (b2, end) := NewLabel(b1);
    if Defaults(s.cases) <= 1 {
      var (b3, deflt) := if Defaults(s.cases) == 1 then NewLabel(b2) else (b2, end);
      MeetsTests(n1, from, b3, lay, d, s.cases);
      GrowTests(b3, lay, d, s.cases);
      var (b4, entries) := CompTests(b3, lay, d, s.cases);
      ExtLabels(b3, b4, set l | l in entries);
      var b5 := EmitGoto(b4, deflt);
      JumpShape(b4, JUMP, 0, deflt);
      var loops1 := loops + [LoopCtx(end, None, s.name, None)];
      MeetsBodies(OfTests(n1, s.cases), from, b5, lay, loops1, es + [Entry(s.name, false, false)], s.cases, entries,
                  deflt, end);
      SameBind(CompBodies(b5, lay, loops1, s.cases, entries, deflt), end);
    }
  }

  // ---- the whole unit -------------------------------------------------------------

  // A unit lowers if and only if every jump has a target, no switch has two defaults, and
  // its registers and constants are within the limits.
  lemma UnitLowers(lay: Layout, body: Stmts)
    ensures !CompUnit(lay, body).failed <==> OfUnit(body).Met(lay.localsEnd + 1)
  {
    MeetsStmts(Need(0, {}, true), lay.localsEnd + 1, NewCtx(lay), lay, [], [], body);
  }
}
