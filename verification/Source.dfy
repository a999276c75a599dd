/**
 The source language of the lowering theorem and its evaluator.

 The evaluator is the reference the bytecode is compared with.  It follows
 ECMA-262: loops and switches consume the completions aimed at them, a `for-of`
 closes its iterator when its body completes abruptly, an optional chain stops at
 the first nullish `?.` link.  Where the lowering departs from the standard on
 purpose (a throwing `next`, `done` or `value` also closes the iterator), so does
 the evaluator; README.md lists these places.
 */
module Source {
  import opened Words
  import opened Machine

  type Sym = nat
  type Label = string

  datatype Key = Static(name: string) | Computed(e: Expr)

  datatype Args = NoArgs | Arg(e: Expr, rest: Args)

  // The links of a chain, base side first.
  datatype Links =
    | End
    | Member(optional: bool, key: Key, rest: Links)
    | Invoke(optional: bool, args: Args, rest: Links)

  datatype Logic = And | Or | Coalesce

  datatype Expr =
    | Lit(v: Val)
    | Local(x: Sym)
    | Unary(op: Opcode, e: Expr)
    | Binary(op: Opcode, l: Expr, r: Expr)
    | ShortCircuit(lop: Logic, l: Expr, r: Expr)
    | Cond(test: Expr, thn: Expr, els: Expr)
    | Comma(l: Expr, r: Expr)
    | Assign(x: Sym, e: Expr)
    | Chain(base: Expr, links: Links)

  datatype Stmt =
    | Empty
    | ExprStmt(e: Expr)
    | Block(body: Stmts)
    | If(test: Expr, thn: Stmt, els: Stmt)
    | While(name: Option<Label>, test: Expr, body1: Stmt)
    | DoWhile(name: Option<Label>, body1: Stmt, test: Expr)
    | For(name: Option<Label>, init: Option<Expr>, cond: Option<Expr>, update: Option<Expr>, body1: Stmt)
    | ForOf(name: Option<Label>, x: Sym, rhs: Expr, body1: Stmt)
    | Labeled(lab: Label, body1: Stmt)
    | Switch(name: Option<Label>, disc: Expr, cases: Cases)
    | Break(lbl: Option<Label>)
    | Continue(lbl: Option<Label>)
    | Return(arg: Option<Expr>)
    | Throw(e: Expr)

  datatype Stmts = Nil | Cons(head: Stmt, tail: Stmts)

  // A clause without a test is the default clause.
  datatype Cases = NoCase | Case(test: Option<Expr>, body: Stmts, rest: Cases)

  // The operators the expression fragment may use.
  predicate UnaryOp(op: Opcode) { op == 16 || op == 23 || op == NOT || op == 64 }

  predicate BinaryOp(op: Opcode) { IsBinary(op) || op == 53 || op == 54 }

  function Defaults(cs: Cases): nat {
    match cs
    case NoCase => 0
    case Case(t, _, rest) => (if t.None? then 1 else 0) + Defaults(rest)
  }

  // ---- expressions ------------------------------------------------------

  type Store = map<Sym, Val>

  function Look(st: Store, x: Sym): Val {
    if x in st then st[x] else Undefined
  }

  datatype ERes = Value(v: Val, st: Store, tr: Trace) | Thrown(v: Val, st: Store, tr: Trace)

  function Ask(h: Host, req: Request, st: Store, tr: Trace): ERes {
    var ans := h(req, tr);
    var tr' := tr + [Event(req, ans)];
    match Heard(req, ans)
    case Ok(v) => Value(v, st, tr')
    case Err(v) => Thrown(v, st, tr')
  }

  function EvalUnary(h: Host, op: Opcode, v: Val, st: Store, tr: Trace): ERes {
    if op == NOT then Value(Bool(!Truthy(v)), st, tr) else Ask(h, Request(op, [], [v]), st, tr)
  }

  function EvalBinary(h: Host, op: Opcode, l: Val, r: Val, st: Store, tr: Trace): ERes {
    var p := PureBinary(op, l, r);
    if IsBinary(op) && p.Some? then Value(p.value, st, tr) else Ask(h, Request(op, [], [l, r]), st, tr)
  }

  // Whether the left operand decides the result of a logical expression.
  predicate Decides(lop: Logic, v: Val) {
    match lop
    case And => !Truthy(v)
    case Or => Truthy(v)
    case Coalesce => !Nullish(v)
  }

  function Eval(h: Host, e: Expr, st: Store, tr: Trace): ERes
    decreases e
  {
    match e
    case Lit(v) => Value(v, st, tr)
    case Local(x) => Value(Look(st, x), st, tr)
    case Unary(op, e1) =>
      var r := Eval(h, e1, st, tr);
      if r.Thrown? then r else EvalUnary(h, op, r.v, r.st, r.tr)
    case Binary(op, a, b) =>
      var l := Eval(h, a, st, tr);
      if l.Thrown? then l else
      var r := Eval(h, b, l.st, l.tr);
      if r.Thrown? then r else EvalBinary(h, op, l.v, r.v, r.st, r.tr)
    case ShortCircuit(lop, a, b) =>
      var l := Eval(h, a, st, tr);
      if l.Thrown? || Decides(lop, l.v) then l else Eval(h, b, l.st, l.tr)
    case Cond(t, a, b) =>
      var c := Eval(h, t, st, tr);
      if c.Thrown? then c else if Truthy(c.v) then Eval(h, a, c.st, c.tr) else Eval(h, b, c.st, c.tr)
    case Comma(a, b) =>
      var l := Eval(h, a, st, tr);
      if l.Thrown? then l else Eval(h, b, l.st, l.tr)
    case Assign(x, e1) =>
      var r := Eval(h, e1, st, tr);
      if r.Thrown? then r else Value(r.v, r.st[x := r.v], r.tr)
    case Chain(b, links) =>
      var r := Eval(h, b, st, tr);
      if r.Thrown? then r else EvalLinks(h, links, r.v, None, r.st, r.tr)
  }

  // The rest of a chain whose current value is cur; recv is the receiver a call
  // would use, present right after a member link only.
  function EvalLinks(h: Host, links: Links, cur: Val, recv: Option<Val>, st: Store, tr: Trace): ERes
    decreases links
  {
    match links
    case End => Value(cur, st, tr)
    case Member(optional, key, rest) =>
      if optional && Nullish(cur) then Value(Undefined, st, tr) else
      var k := EvalKey(h, key, st, tr);
      if k.Thrown? then k else
      var r := Ask(h, Request(GET_PROPERTY, [], [cur, k.v]), k.st, k.tr);
      if r.Thrown? then r else EvalLinks(h, rest, r.v, Some(cur), r.st, r.tr)
    case Invoke(optional, args, rest) =>
      if optional && Nullish(cur) then Value(Undefined, st, tr) else
      var receiver := if recv.Some? then recv.value else Undefined;
      var (vs, a) := EvalArgs(h, args, st, tr);
      if a.Thrown? then a else
      var r := Ask(h, Request(CALL, [|vs|], [cur, receiver] + vs), a.st, a.tr);
      if r.Thrown? then r else EvalLinks(h, rest, r.v, None, r.st, r.tr)
  }

  function EvalKey(h: Host, key: Key, st: Store, tr: Trace): ERes
    decreases key
  {
    match key
    case Static(name) => Value(Str(name), st, tr)
    case Computed(e) => Eval(h, e, st, tr)
  }

  // Argument values in order; the second component carries the state, or the throw.
  function EvalArgs(h: Host, args: Args, st: Store, tr: Trace): (seq<Val>, ERes)
    decreases args
  {
    match args
    case NoArgs => ([], Value(Undefined, st, tr))
    case Arg(e, rest) =>
      var r := Eval(h, e, st, tr);
      if r.Thrown? then ([], r) else
      var (vs, a) := EvalArgs(h, rest, r.st, r.tr);
      ([r.v] + vs, a)
  }

  // ---- statements -------------------------------------------------------

  datatype Comp =
    | Normal
    | Brk(lbl: Option<Label>)
    | Cont(lbl: Option<Label>)
    | Ret(v: Val)
    | Thr(v: Val)
    | OutOfFuel

  datatype SRes = SRes(c: Comp, st: Store, tr: Trace)

  // A loop or switch named `name` is the target of this jump.
  predicate Aimed(lbl: Option<Label>, name: Option<Label>) {
    lbl.None? || lbl == name
  }

  // The loop goes on after its body completes with c.
  predicate Again(c: Comp, name: Option<Label>) {
    c.Normal? || (c.Cont? && Aimed(c.lbl, name))
  }

  predicate Leaves(c: Comp, name: Option<Label>) {
    c.Brk? && Aimed(c.lbl, name)
  }

  function Execute(h: Host, s: Stmt, st: Store, tr: Trace, fuel: nat): SRes
    decreases fuel, s, 1
  {
    match s
    case Empty => SRes(Normal, st, tr)
    case ExprStmt(e) =>
      var r := Eval(h, e, st, tr);
      SRes(if r.Thrown? then Thr(r.v) else Normal, r.st, r.tr)
    case Block(body) => ExecAll(h, body, st, tr, fuel)
    case If(t, a, b) =>
      var r := Eval(h, t, st, tr);
      if r.Thrown? then SRes(Thr(r.v), r.st, r.tr)
      else if Truthy(r.v) then Execute(h, a, r.st, r.tr, fuel) else Execute(h, b, r.st, r.tr, fuel)
    case While(name, t, body) =>
      if fuel == 0 then SRes(OutOfFuel, st, tr) else
      var r := Eval(h, t, st, tr);
      if r.Thrown? then SRes(Thr(r.v), r.st, r.tr)
      else if !Truthy(r.v) then SRes(Normal, r.st, r.tr)
      else
        var b := Execute(h, body, r.st, r.tr, fuel);
        if Again(b.c, name) then Execute(h, s, b.st, b.tr, fuel - 1)
        else if Leaves(b.c, name) then SRes(Normal, b.st, b.tr) else b
    case DoWhile(name, body, t) =>
      if fuel == 0 then SRes(OutOfFuel, st, tr) else
      var b := Execute(h, body, st, tr, fuel);
      if Again(b.c, name) then
        var r := Eval(h, t, b.st, b.tr);
        if r.Thrown? then SRes(Thr(r.v), r.st, r.tr)
        else if Truthy(r.v) then Execute(h, s, r.st, r.tr, fuel - 1)
        else SRes(Normal, r.st, r.tr)
      else if Leaves(b.c, name) then SRes(Normal, b.st, b.tr) else b
    case For(_, init, _, _, _) =>
      if init.None? then ExecFor(h, s, st, tr, fuel) else
      var r := Eval(h, init.value, st, tr);
      if r.Thrown? then SRes(Thr(r.v), r.st, r.tr) else ExecFor(h, s, r.st, r.tr, fuel)
    case ForOf(_, _, rhs, _) =>
      var r := Eval(h, rhs, st, tr);
      if r.Thrown? then SRes(Thr(r.v), r.st, r.tr) else
      var it := Ask(h, Request(GET_ITERATOR, [], [r.v]), r.st, r.tr);
      if it.Thrown? then SRes(Thr(it.v), it.st, it.tr) else ExecForOf(h, s, it.v, it.st, it.tr, fuel)
    case Labeled(lab, body) =>
      var b := Execute(h, body, st, tr, fuel);
      if b.c == Brk(Some(lab)) then SRes(Normal, b.st, b.tr) else b
    case Switch(name, disc, cases) =>
      var d := Eval(h, disc, st, tr);
      if d.Thrown? then SRes(Thr(d.v), d.st, d.tr) else
      var (sel, t) := Select(h, cases, d.v, d.st, d.tr);
      if t.Thrown? then SRes(Thr(t.v), t.st, t.tr) else
      var b := ExecCases(h, cases, sel, t.st, t.tr, fuel);
      if Leaves(b.c, name) then SRes(Normal, b.st, b.tr) else b
    case Break(l) => SRes(Brk(l), st, tr)
    case Continue(l) => SRes(Cont(l), st, tr)
    case Return(arg) =>
      if arg.None? then SRes(Ret(Undefined), st, tr) else
      var r := Eval(h, arg.value, st, tr);
      SRes(if r.Thrown? then Thr(r.v) else Ret(r.v), r.st, r.tr)
    case Throw(e) =>
      var r := Eval(h, e, st, tr);
      SRes(Thr(r.v), r.st, r.tr)
  }

  function ExecAll(h: Host, ss: Stmts, st: Store, tr: Trace, fuel: nat): SRes
    decreases fuel, ss, 0
  {
    match ss
    case Nil => SRes(Normal, st, tr)
    case Cons(s, rest) =>
      var r := Execute(h, s, st, tr, fuel);
      if r.c.Normal? then ExecAll(h, rest, r.st, r.tr, fuel) else r
  }

  // A `for` loop from its head on.
  function ExecFor(h: Host, s: Stmt, st: Store, tr: Trace, fuel: nat): SRes
    requires s.For?
    decreases fuel, s, 0
  {
    if fuel == 0 then SRes(OutOfFuel, st, tr) else
    var r := if s.cond.None? then Value(Bool(true), st, tr) else Eval(h, s.cond.value, st, tr);
    if r.Thrown? then SRes(Thr(r.v), r.st, r.tr)
    else if !Truthy(r.v) then SRes(Normal, r.st, r.tr)
    else
      var b := Execute(h, s.body1, r.st, r.tr, fuel);
      if Again(b.c, s.name) then
        if s.update.None? then ExecFor(h, s, b.st, b.tr, fuel - 1) else
        var u := Eval(h, s.update.value, b.st, b.tr);
        if u.Thrown? then SRes(Thr(u.v), u.st, u.tr) else ExecFor(h, s, u.st, u.tr, fuel - 1)
      else if Leaves(b.c, s.name) then SRes(Normal, b.st, b.tr) else b
  }

  function CloseRequest(iter: Val, flag: nat): Request {
    Request(ITERATOR_CLOSE, [flag], [iter])
  }

  // The loop is left by a throw of v: close on the throw path, whatever comes of that,
  // then rethrow.
  function ThrowClose(h: Host, iter: Val, v: Val, st: Store, tr: Trace): SRes {
    var r := Ask(h, CloseRequest(iter, 0), st, tr);
    SRes(Thr(v), r.st, r.tr)
  }

  // The loop is left by completion c, which is not a throw: an error of the close wins.
  function ExitClose(h: Host, iter: Val, c: Comp, st: Store, tr: Trace): SRes {
    var r := Ask(h, CloseRequest(iter, 1), st, tr);
    SRes(if r.Thrown? then Thr(r.v) else c, r.st, r.tr)
  }

  const DONE: Val := Str("done")
  const VALUE: Val := Str("value")

  // A `for-of` loop over iterator iter from its head on.
  function ExecForOf(h: Host, s: Stmt, iter: Val, st: Store, tr: Trace, fuel: nat): SRes
    requires s.ForOf?
    decreases fuel, s, 0
  {
    if fuel == 0 then SRes(OutOfFuel, st, tr) else
    var n := Ask(h, Request(ITERATOR_NEXT, [], [iter]), st, tr);
    if n.Thrown? then ThrowClose(h, iter, n.v, st, n.tr) else
    var d := Ask(h, Request(GET_PROPERTY, [], [n.v, DONE]), st, n.tr);
    if d.Thrown? then ThrowClose(h, iter, d.v, st, d.tr)
    else if Truthy(d.v) then SRes(Normal, st, d.tr)
    else
      var v := Ask(h, Request(GET_PROPERTY, [], [n.v, VALUE]), st, d.tr);
      if v.Thrown? then ThrowClose(h, iter, v.v, st, v.tr) else
      var b := Execute(h, s.body1, st[s.x := v.v], v.tr, fuel);
      if Again(b.c, s.name) then ExecForOf(h, s, iter, b.st, b.tr, fuel - 1)
      else if b.c.OutOfFuel? then b
      else if b.c.Thr? then ThrowClose(h, iter, b.c.v, b.st, b.tr)
      else ExitClose(h, iter, if Leaves(b.c, s.name) then Normal else b.c, b.st, b.tr)
  }

  // Clause selection: the tests run in order until one matches; without a match
  // the default clause is selected, or none at all.
  function Select(h: Host, cs: Cases, d: Val, st: Store, tr: Trace): (Option<nat>, ERes) {
    var (i, r) := FirstMatch(h, cs, d, st, tr);
    (if r.Thrown? || i.Some? then i else DefaultIndex(cs), r)
  }

  function FirstMatch(h: Host, cs: Cases, d: Val, st: Store, tr: Trace): (Option<nat>, ERes)
    decreases cs
  {
    match cs
    case NoCase => (None, Value(Undefined, st, tr))
    case Case(t, _, rest) =>
      if t.None? then
        var (i, r) := FirstMatch(h, rest, d, st, tr);
        (if i.Some? then Some(i.value + 1) else None, r)
      else
        var v := Eval(h, t.value, st, tr);
        if v.Thrown? then (None, v)
        else if StrictEq(d, v.v) then (Some(0), v)
        else
          var (i, r) := FirstMatch(h, rest, d, v.st, v.tr);
          (if i.Some? then Some(i.value + 1) else None, r)
  }

  function DefaultIndex(cs: Cases): Option<nat> {
    match cs
    case NoCase => None
    case Case(t, _, rest) =>
      if t.None? then Some(0)
      else if DefaultIndex(rest).Some? then Some(DefaultIndex(rest).value + 1) else None
  }

  // The clause bodies from the selected one on, falling through.
  function ExecCases(h: Host, cs: Cases, sel: Option<nat>, st: Store, tr: Trace, fuel: nat): SRes
    decreases fuel, cs, 0
  {
    match cs
    case NoCase => SRes(Normal, st, tr)
    case Case(_, body, rest) =>
      if sel.None? then SRes(Normal, st, tr)
      else if sel.value > 0 then ExecCases(h, rest, Some(sel.value - 1), st, tr, fuel)
      else
        var r := ExecAll(h, body, st, tr, fuel);
        if r.c.Normal? then ExecCases(h, rest, sel, r.st, r.tr, fuel) else r
  }

  // Without a selected clause nothing runs.
  lemma SelectNone(h: Host, cs: Cases, st: Store, tr: Trace, fuel: nat)
    ensures ExecCases(h, cs, None, st, tr, fuel) == SRes(Normal, st, tr)
  {
  }
}
