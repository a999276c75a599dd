/**
 The iterator-close protocol of `for-of` (IteratorClose, section 7.4.6 of ECMA-262 as
 the source numbers it): what each loop does to its own iterator, and the count of
 closes over whole runs of the compiled program.
 */
module Iterators {
  import opened Words
  import opened Machine
  import opened Assembly
  import opened Source
  import opened Lowering
  import opened ExprCorrect
  import opened StmtFrame
  import opened ForOfHead
  import opened Compile

  // ---- counting ---------------------------------------------------------

  // How often a trace hands out iterator it.
  function Gets(tr: Trace, it: Val): nat {
    if tr == [] then 0 else Gets(tr[..|tr| - 1], it) + if IsGet(tr[|tr| - 1], it) then 1 else 0
  }

  // How often a trace closes iterator it.
  function Closes(tr: Trace, it: Val): nat {
    if tr == [] then 0 else Closes(tr[..|tr| - 1], it) + if IsClose(tr[|tr| - 1], it) then 1 else 0
  }

  predicate IsGet(e: Event, it: Val) { e.req.op == GET_ITERATOR && e.ans == Ok(it) }

  predicate IsClose(e: Event, it: Val) { e.req.op == ITERATOR_CLOSE && e.req.args == [it] }

  lemma CountSnoc(tr: Trace, e: Event, it: Val)
    ensures Gets(tr + [e], it) == Gets(tr, it) + if IsGet(e, it) then 1 else 0
    ensures Closes(tr + [e], it) == Closes(tr, it) + if IsClose(e, it) then 1 else 0
  {
    assert (tr + [e])[..|tr|] == tr;
  }

  // Iterators handed out and not yet closed.
  function Open(tr: Trace, it: Val): int { Gets(tr, it) - Closes(tr, it) }

  // From tr to tr', no close that is not covered by an iterator handed out since,
  // except for `owed` ones.
  ghost predicate Covered(tr: Trace, tr': Trace, it: Val, owed: nat) {
    Open(tr, it) - owed <= Open(tr', it)
  }

  // ---- expressions neither open nor close iterators ----------------------

  lemma AskQuiet(h: Host, req: Request, st: Store, tr: Trace, it: Val)
    requires req.op != GET_ITERATOR && req.op != ITERATOR_CLOSE
    ensures Open(Ask(h, req, st, tr).tr, it) == Open(tr, it)
  {
    CountSnoc(tr, Event(req, h(req, tr)), it);
  }

  lemma {:induction false} EvalQuiet(h: Host, lay: Layout, e: Expr, st: Store, tr: Trace, it: Val)
    requires WfExpr(lay, e)
    ensures Open(Eval(h, e, st, tr).tr, it) == Open(tr, it)
    decreases e
  {
    hide Open; hide Ask;
    match e
    case Lit(_) =>
    case Local(_) =>
    case Unary(op, e1) =>
      EvalQuiet(h, lay, e1, st, tr, it);
      var r := Eval(h, e1, st, tr);
      if r.Value? { AskQuiet(h, Request(op, [], [r.v]), r.st, r.tr, it); }
    case Binary(op, a, b) =>
      EvalQuiet(h, lay, a, st, tr, it);
      var l := Eval(h, a, st, tr);
      if l.Value? {
        EvalQuiet(h, lay, b, l.st, l.tr, it);
        var r := Eval(h, b, l.st, l.tr);
        if r.Value? { AskQuiet(h, Request(op, [], [l.v, r.v]), r.st, r.tr, it); }
      }
    case ShortCircuit(_, a, b) =>
      EvalQuiet(h, lay, a, st, tr, it);
      var l := Eval(h, a, st, tr);
      EvalQuiet(h, lay, b, l.st, l.tr, it);
    case Cond(t, a, b) =>
      EvalQuiet(h, lay, t, st, tr, it);
      var c := Eval(h, t, st, tr);
      EvalQuiet(h, lay, a, c.st, c.tr, it);
      EvalQuiet(h, lay, b, c.st, c.tr, it);
    case Comma(a, b) =>
      EvalQuiet(h, lay, a, st, tr, it);
      var l := Eval(h, a, st, tr);
      EvalQuiet(h, lay, b, l.st, l.tr, it);
    case Assign(_, e1) => EvalQuiet(h, lay, e1, st, tr, it);
    case Chain(b, links) =>
      EvalQuiet(h, lay, b, st, tr, it);
      var r := Eval(h, b, st, tr);
      if r.Value? { LinksQuiet(h, lay, links, r.v, None, r.st, r.tr, it); }
  }

  lemma {:induction false} LinksQuiet(h: Host, lay: Layout, links: Links, cur: Val, recv: Option<Val>, st: Store,
                                      tr: Trace, it: Val)
    requires WfLinks(lay, links)
    ensures Open(EvalLinks(h, links, cur, recv, st, tr).tr, it) == Open(tr, it)
    decreases links
  {
    hide Open; hide Ask;
    match links
    case End =>
    case Member(_, key, rest) =>
      if key.Computed? { EvalQuiet(h, lay, key.e, st, tr, it); }
      var k := EvalKey(h, key, st, tr);
      if k.Value? {
        var req := Request(GET_PROPERTY, [], [cur, k.v]);
        AskQuiet(h, req, k.st, k.tr, it);
        var r := Ask(h, req, k.st, k.tr);
        LinksQuiet(h, lay, rest, r.v, Some(cur), r.st, r.tr, it);
      }
    case Invoke(_, args, rest) =>
      ArgsQuiet(h, lay, args, st, tr, it);
      var receiver := if recv.Some? then recv.value else Undefined;
      var (vs, a) := EvalArgs(h, args, st, tr);
      if a.Value? {
        var req := Request(CALL, [|vs|], [cur, receiver] + vs);
        AskQuiet(h, req, a.st, a.tr, it);
        var r := Ask(h, req, a.st, a.tr);
        LinksQuiet(h, lay, rest, r.v, None, r.st, r.tr, it);
      }
  }

  lemma {:induction false} ArgsQuiet(h: Host, lay: Layout, args: Args, st: Store, tr: Trace, it: Val)
    requires WfArgs(lay, args)
    ensures Open(EvalArgs(h, args, st, tr).1.tr, it) == Open(tr, it)
    decreases args
  {
    hide Open;
    match args
    case NoArgs =>
    case Arg(e, rest) =>
      EvalQuiet(h, lay, e, st, tr, it);
      var r := Eval(h, e, st, tr);
      if r.Value? { ArgsQuiet(h, lay, rest, r.st, r.tr, it); }
  }

  // ---- statements close only what they opened ----------------------------

  lemma {:induction false} ExecuteCovered(h: Host, lay: Layout, s: Stmt, st: Store, tr: Trace, fuel: nat, it: Val)
    requires WfStmt(lay, s)
    ensures Covered(tr, Execute(h, s, st, tr, fuel).tr, it, 0)
    decreases fuel, s, 3
  {
    hide Open; hide Eval; hide ExecForOf; hide ExecFor; hide ExecCases; hide FirstMatch;
    match s
    case Empty =>
    case ExprStmt(e) => EvalQuiet(h, lay, e, st, tr, it);
    case Block(body) => AllCovered(h, lay, body, st, tr, fuel, it);
    case If(t, a, b) =>
      EvalQuiet(h, lay, t, st, tr, it);
      var r := Eval(h, t, st, tr);
      ExecuteCovered(h, lay, a, r.st, r.tr, fuel, it);
      ExecuteCovered(h, lay, b, r.st, r.tr, fuel, it);
    case While(name, t, body) =>
      if fuel > 0 {
        EvalQuiet(h, lay, t, st, tr, it);
        var r := Eval(h, t, st, tr);
        ExecuteCovered(h, lay, body, r.st, r.tr, fuel, it);
        var b := Execute(h, body, r.st, r.tr, fuel);
        ExecuteCovered(h, lay, s, b.st, b.tr, fuel - 1, it);
      }
    case DoWhile(name, body, t) =>
      if fuel > 0 {
        ExecuteCovered(h, lay, body, st, tr, fuel, it);
        var b := Execute(h, body, st, tr, fuel);
        EvalQuiet(h, lay, t, b.st, b.tr, it);
        var r := Eval(h, t, b.st, b.tr);
        ExecuteCovered(h, lay, s, r.st, r.tr, fuel - 1, it);
      }
    case For(_, init, _, _, _) =>
      if init.Some? {
        EvalQuiet(h, lay, init.value, st, tr, it);
        var r := Eval(h, init.value, st, tr);
        ForCovered(h, lay, s, r.st, r.tr, fuel, it);
      } else {
        ForCovered(h, lay, s, st, tr, fuel, it);
      }
    case ForOf(_, _, rhs, _) =>
      EvalQuiet(h, lay, rhs, st, tr, it);
      var r := Eval(h, rhs, st, tr);
      if r.Value? {
        var req := Request(GET_ITERATOR, [], [r.v]);
        var got := Ask(h, req, r.st, r.tr);
        GetOpens(h, req, r.tr, it);
        if got.Value? { ForOfCovered(h, lay, s, got.v, got.st, got.tr, fuel, it); }
      }
    case Labeled(_, body) => ExecuteCovered(h, lay, body, st, tr, fuel, it);
    case Switch(_, disc, cases) =>
      EvalQuiet(h, lay, disc, st, tr, it);
      var d := Eval(h, disc, st, tr);
      if d.Value? {
        MatchQuiet(h, lay, cases, d.v, d.st, d.tr, it);
        var (sel, t) := Select(h, cases, d.v, d.st, d.tr);
        CasesCovered(h, lay, cases, sel, t.st, t.tr, fuel, it);
      }
    case Break(_) =>
    case Continue(_) =>
    case Return(arg) => if arg.Some? { EvalQuiet(h, lay, arg.value, st, tr, it); }
    case Throw(e) => EvalQuiet(h, lay, e, st, tr, it);
  }

  lemma GetOpens(h: Host, req: Request, tr: Trace, it: Val)
    requires req.op == GET_ITERATOR
    ensures Open(tr + [Event(req, h(req, tr))], it) == Open(tr, it) + if h(req, tr) == Ok(it) then 1 else 0
  {
    CountSnoc(tr, Event(req, h(req, tr)), it);
  }

  lemma CloseOwes(h: Host, iter: Val, flag: nat, st: Store, tr: Trace, it: Val)
    ensures Covered(tr, Ask(h, CloseRequest(iter, flag), st, tr).tr, it, if it == iter then 1 else 0)
  {
    var req := CloseRequest(iter, flag);
    CountSnoc(tr, Event(req, h(req, tr)), it);
  }

  lemma {:induction false} AllCovered(h: Host, lay: Layout, ss: Stmts, st: Store, tr: Trace, fuel: nat, it: Val)
    requires WfStmts(lay, ss)
    ensures Covered(tr, ExecAll(h, ss, st, tr, fuel).tr, it, 0)
    decreases fuel, ss, 0
  {
    hide Open; hide Execute;
    if ss.Cons? {
      ExecuteCovered(h, lay, ss.head, st, tr, fuel, it);
      var r := Execute(h, ss.head, st, tr, fuel);
      if r.c.Normal? { AllCovered(h, lay, ss.tail, r.st, r.tr, fuel, it); }
    }
  }

  lemma {:induction false} ForCovered(h: Host, lay: Layout, s: Stmt, st: Store, tr: Trace, fuel: nat, it: Val)
    requires s.For? && WfStmt(lay, s)
    ensures Covered(tr, ExecFor(h, s, st, tr, fuel).tr, it, 0)
    decreases fuel, s, 2
  {
    hide Open; hide Execute; hide Eval;
    if fuel > 0 {
      if s.cond.Some? { EvalQuiet(h, lay, s.cond.value, st, tr, it); }
      var r := if s.cond.None? then Value(Bool(true), st, tr) else Eval(h, s.cond.value, st, tr);
      ExecuteCovered(h, lay, s.body1, r.st, r.tr, fuel, it);
      var b := Execute(h, s.body1, r.st, r.tr, fuel);
      if s.update.Some? {
        EvalQuiet(h, lay, s.update.value, b.st, b.tr, it);
        var u := Eval(h, s.update.value, b.st, b.tr);
        ForCovered(h, lay, s, u.st, u.tr, fuel - 1, it);
      } else {
        ForCovered(h, lay, s, b.st, b.tr, fuel - 1, it);
      }
    }
  }

  // A loop over iter owes at most one close, of iter.
  lemma {:induction false} ForOfCovered(h: Host, lay: Layout, s: Stmt, iter: Val, st: Store, tr: Trace, fuel: nat,
                                        it: Val)
    requires s.ForOf? && WfStmt(lay, s)
    ensures Covered(tr, ExecForOf(h, s, iter, st, tr, fuel).tr, it, if it == iter then 1 else 0)
    decreases fuel, s, 2
  {
    hide Open; hide Execute; hide Fetch; hide ExecForOf; hide Ask;
    UnfoldForOf(h, s, iter, st, tr, fuel);
    if fuel > 0 {
      FetchQuiet(h, iter, tr, it);
      match Fetch(h, iter, tr)
      case Raised(v, tr1) => CloseOwes(h, iter, 0, st, tr1, it);
      case Exhausted(tr1) =>
      case Got(v, tr1) =>
        ExecuteCovered(h, lay, s.body1, st[s.x := v], tr1, fuel, it);
        var b := Execute(h, s.body1, st[s.x := v], tr1, fuel);
        ForOfCovered(h, lay, s, iter, b.st, b.tr, fuel - 1, it);
        CloseOwes(h, iter, 0, b.st, b.tr, it);
        CloseOwes(h, iter, 1, b.st, b.tr, it);
    }
  }

  lemma FetchQuiet(h: Host, iter: Val, tr: Trace, it: Val)
    ensures Open(Fetch(h, iter, tr).tr, it) == Open(tr, it)
  {
    hide Open; hide Ask;
    var r1 := Request(ITERATOR_NEXT, [], [iter]);
    var n := Ask(h, r1, map[], tr);
    AskQuiet(h, r1, map[], tr, it);
    var r2 := Request(GET_PROPERTY, [], [n.v, DONE]);
    var d := Ask(h, r2, map[], n.tr);
    AskQuiet(h, r2, map[], n.tr, it);
    AskQuiet(h, Request(GET_PROPERTY, [], [n.v, VALUE]), map[], d.tr, it);
  }

  lemma {:induction false} MatchQuiet(h: Host, lay: Layout, cs: Cases, d: Val, st: Store, tr: Trace, it: Val)
    requires WfCases(lay, cs)
    ensures Open(FirstMatch(h, cs, d, st, tr).1.tr, it) == Open(tr, it)
    decreases cs
  {
    hide Open; hide Eval;
    if cs.Case? {
      if cs.test.None? {
        MatchQuiet(h, lay, cs.rest, d, st, tr, it);
      } else {
        EvalQuiet(h, lay, cs.test.value, st, tr, it);
        var v := Eval(h, cs.test.value, st, tr);
        MatchQuiet(h, lay, cs.rest, d, v.st, v.tr, it);
      }
    }
  }

  lemma {:induction false} CasesCovered(h: Host, lay: Layout, cs: Cases, sel: Option<nat>, st: Store, tr: Trace,
                                        fuel: nat, it: Val)
    requires WfCases(lay, cs)
    ensures Covered(tr, ExecCases(h, cs, sel, st, tr, fuel).tr, it, 0)
    decreases fuel, cs, 0
  {
    hide Open; hide ExecAll;
    if cs.Case? && sel.Some? {
      if sel.value > 0 {
        CasesCovered(h, lay, cs.rest, Some(sel.value - 1), st, tr, fuel, it);
      } else {
        AllCovered(h, lay, cs.body, st, tr, fuel, it);
        var r := ExecAll(h, cs.body, st, tr, fuel);
        CasesCovered(h, lay, cs.rest, sel, r.st, r.tr, fuel, it);
      }
    }
  }

  // ---- exactly once, or never --------------------------------------------

  // Store and trace at the loop head after k full rounds.
  function AfterRounds(h: Host, s: Stmt, it: Val, st: Store, tr: Trace, fuel: nat, k: nat): Option<(Store, Trace)>
    requires s.ForOf?
    decreases k
  {
    if k == 0 then Some((st, tr))
    else if fuel == 0 then None
    else
      match Fetch(h, it, tr)
      case Got(v, tr1) =>
        var b := Execute(h, s.body1, st[s.x := v], tr1, fuel);
        if Again(b.c, s.name) then AfterRounds(h, s, it, b.st, b.tr, fuel - 1, k - 1) else None
      case _ => None
  }

  // How a loop ends at its k-th round: exhausted and not closed at all, or closed
  // by the very last request, once, with the error rules of the standard.
  ghost predicate EndsAt(h: Host, s: Stmt, it: Val, st: Store, tr: Trace, fuel: nat, k: nat, r: SRes)
    requires s.ForOf?
  {
    var at := AfterRounds(h, s, it, st, tr, fuel, k);
    && at.Some? && k < fuel
    && match Fetch(h, it, at.value.1)
       case Exhausted(tr1) => r == SRes(Normal, at.value.0, tr1)
       case Raised(v, tr1) => ClosedBy(h, it, Thr(v), at.value.0, tr1, r)
       case Got(v, tr1) =>
         var b := Execute(h, s.body1, at.value.0[s.x := v], tr1, fuel - k);
         && !Again(b.c, s.name) && !b.c.OutOfFuel?
         && ClosedBy(h, it, if Leaves(b.c, s.name) then Normal else b.c, b.st, b.tr, r)
  }

  // After tr the iterator is closed once; a throw completion stands whatever comes of
  // the close, any other completion yields to an error of it.
  ghost predicate ClosedBy(h: Host, it: Val, c: Comp, st: Store, tr: Trace, r: SRes) {
    var req := CloseRequest(it, if c.Thr? then 0 else 1);
    var ans := h(req, tr);
    r == SRes(if ans.Err? && !c.Thr? then Thr(ans.v) else c, st, tr + [Event(req, ans)])
  }

  lemma {:induction false} ForOfEnds(h: Host, s: Stmt, it: Val, st: Store, tr: Trace, fuel: nat) returns (k: nat)
    requires s.ForOf? && !ExecForOf(h, s, it, st, tr, fuel).c.OutOfFuel?
    ensures EndsAt(h, s, it, st, tr, fuel, k, ExecForOf(h, s, it, st, tr, fuel))
    decreases fuel
  {
    hide Execute; hide Fetch; hide ExecForOf; hide EndsAt;
    UnfoldForOf(h, s, it, st, tr, fuel);
    k := 0;
    if Fetch(h, it, tr).Got? {
      var got := Fetch(h, it, tr);
      var b := Execute(h, s.body1, st[s.x := got.v], got.tr, fuel);
      if Again(b.c, s.name) {
        k := ForOfEnds(h, s, it, b.st, b.tr, fuel - 1);
        EndsLater(h, s, it, st, tr, fuel, k, ExecForOf(h, s, it, b.st, b.tr, fuel - 1));
        k := k + 1;
        return;
      }
    }
    EndsNow(h, s, it, st, tr, fuel);
  }

  lemma EndsLater(h: Host, s: Stmt, it: Val, st: Store, tr: Trace, fuel: nat, k: nat, r: SRes)
    requires s.ForOf? && fuel > 0 && Fetch(h, it, tr).Got?
    requires var got := Fetch(h, it, tr);
             var b := Execute(h, s.body1, st[s.x := got.v], got.tr, fuel);
             Again(b.c, s.name) && EndsAt(h, s, it, b.st, b.tr, fuel - 1, k, r)
    ensures EndsAt(h, s, it, st, tr, fuel, k + 1, r)
  {
    hide Execute; hide Fetch; hide ClosedBy;
  }

  lemma EndsNow(h: Host, s: Stmt, it: Val, st: Store, tr: Trace, fuel: nat)
    requires s.ForOf? && !ExecForOf(h, s, it, st, tr, fuel).c.OutOfFuel?
    requires var got := Fetch(h, it, tr);
             got.Got? && fuel > 0 ==> !Again(Execute(h, s.body1, st[s.x := got.v], got.tr, fuel).c, s.name)
    ensures EndsAt(h, s, it, st, tr, fuel, 0, ExecForOf(h, s, it, st, tr, fuel))
  {
    hide Execute; hide Fetch; hide ExecForOf;
    UnfoldForOf(h, s, it, st, tr, fuel);
  }

  // ---- the standard's loop --------------------------------------------------

  // The same loop by the standard: a throwing `next`, `done` or `value` leaves the
  // iterator alone.
  function StandardForOf(h: Host, s: Stmt, it: Val, st: Store, tr: Trace, fuel: nat): SRes
    requires s.ForOf?
    decreases fuel
  {
    if fuel == 0 then SRes(OutOfFuel, st, tr) else
    match Fetch(h, it, tr)
    case Raised(v, tr1) => SRes(Thr(v), st, tr1)
    case Exhausted(tr1) => SRes(Normal, st, tr1)
    case Got(v, tr1) =>
      var b := Execute(h, s.body1, st[s.x := v], tr1, fuel);
      if Again(b.c, s.name) then StandardForOf(h, s, it, b.st, b.tr, fuel - 1)
      else if b.c.OutOfFuel? then b
      else if b.c.Thr? then ThrowClose(h, it, b.c.v, b.st, b.tr)
      else ExitClose(h, it, if Leaves(b.c, s.name) then Normal else b.c, b.st, b.tr)
  }

  // Some round's head raises an error.
  ghost predicate HeadRaises(h: Host, s: Stmt, it: Val, st: Store, tr: Trace, fuel: nat)
    requires s.ForOf?
  {
    exists k: nat :: RaisesAt(h, s, it, st, tr, fuel, k)
  }

  ghost predicate RaisesAt(h: Host, s: Stmt, it: Val, st: Store, tr: Trace, fuel: nat, k: nat)
    requires s.ForOf?
  {
    var at := AfterRounds(h, s, it, st, tr, fuel, k);
    k < fuel && at.Some? && Fetch(h, it, at.value.1).Raised?
  }

  // The loop is the standard's loop if and only if no round's head raises an error.
  lemma {:induction false} StandardUnlessRaised(h: Host, s: Stmt, it: Val, st: Store, tr: Trace, fuel: nat)
    requires s.ForOf?
    ensures ExecForOf(h, s, it, st, tr, fuel) == StandardForOf(h, s, it, st, tr, fuel) <==>
            !HeadRaises(h, s, it, st, tr, fuel)
    decreases fuel
  {
    hide Execute; hide Fetch; hide ExecForOf;
    UnfoldForOf(h, s, it, st, tr, fuel);
    if fuel == 0 { return; }
    var got := Fetch(h, it, tr);
    if got.Raised? {
      assert RaisesAt(h, s, it, st, tr, fuel, 0);
      return;
    }
    var b := if got.Got? then Execute(h, s.body1, st[s.x := got.v], got.tr, fuel) else SRes(Normal, st, tr);
    if got.Got? && Again(b.c, s.name) {
      StandardUnlessRaised(h, s, it, b.st, b.tr, fuel - 1);
      forall k: nat
        ensures RaisesAt(h, s, it, st, tr, fuel, k) <==> k > 0 && RaisesAt(h, s, it, b.st, b.tr, fuel - 1, k - 1)
      {
      }
      if HeadRaises(h, s, it, b.st, b.tr, fuel - 1) {
        var k: nat :| RaisesAt(h, s, it, b.st, b.tr, fuel - 1, k);
        assert RaisesAt(h, s, it, st, tr, fuel, k + 1);
      }
    } else {
      forall k: nat ensures !RaisesAt(h, s, it, st, tr, fuel, k) {
      }
    }
  }

  // A host whose iterators fail on `next`.
  const RAISING: Host := (req: Request, tr: Trace) => if req.op == ITERATOR_NEXT then Err(Str("next"))
    else Ok(Undefined)

  // On it the loop closes the iterator that raised, and the standard's loop does not.
  lemma RaisingNextCloses(s: Stmt, it: Val, st: Store, tr: Trace, fuel: nat)
    requires s.ForOf? && fuel > 0
    ensures var raised := tr + [Event(Request(ITERATOR_NEXT, [], [it]), Err(Str("next")))];
            && StandardForOf(RAISING, s, it, st, tr, fuel) == SRes(Thr(Str("next")), st, raised)
            && ExecForOf(RAISING, s, it, st, tr, fuel)
               == SRes(Thr(Str("next")), st, raised + [Event(CloseRequest(it, 0), Ok(Undefined))])
  {
  }

  // ---- whole runs of the machine ------------------------------------------

  // The host hands out each iterator object once.
  ghost predicate FreshIterators(h: Host) {
    forall req: Request, tr: Trace, it: Val :: req.op == GET_ITERATOR && h(req, tr) == Ok(it) ==> Gets(tr, it) == 0
  }

  // A step extends the trace by nothing or by one answered request.
  lemma StepTrace(m: Machine, s: State)
    ensures var tr := match Step(m, s) case Running(t) => t.tr case Done(f) => f.tr;
            tr == s.tr || exists req :: tr == s.tr + [Event(req, m.host(req, s.tr))]
  {
    hide FindHandler; hide Exec;
    var e := EffectAt(m, s);
    if s.pc < |m.code.instrs| && Decode(m.code.instrs, s.pc).Some? {
      ExecTrace(m, Decode(m.code.instrs, s.pc).value, s);
    }
  }

  lemma ExecTrace(m: Machine, l: Logical, s: State)
    requires Decoded(l)
    ensures var e := Exec(m.code, m.host, l, s.regs, s.tr);
            e.Next? || e.Raise? ==> e.tr == s.tr || exists req :: e.tr == s.tr + [Event(req, m.host(req, s.tr))]
  {
    hide ShapeOf; hide PureBinary; hide Instr.Lo;
  }

  lemma {:induction false} RunTrace(m: Machine, s: State, n: nat, t: State, it: Val)
    requires Runs(m, s, n, t)
    ensures Gets(s.tr, it) <= Gets(t.tr, it) && Closes(s.tr, it) <= Closes(t.tr, it)
    ensures FreshIterators(m.host) && Gets(s.tr, it) <= 1 ==> Gets(t.tr, it) <= 1
    decreases n
  {
    hide Step;
    if n > 0 {
      StepCounts(m, s, it);
      RunTrace(m, Step(m, s).s, n - 1, t, it);
    }
  }

  lemma StepCounts(m: Machine, s: State, it: Val)
    ensures var tr := match Step(m, s) case Running(t) => t.tr case Done(f) => f.tr;
            && Gets(s.tr, it) <= Gets(tr, it) && Closes(s.tr, it) <= Closes(tr, it)
            && (FreshIterators(m.host) && Gets(s.tr, it) <= 1 ==> Gets(tr, it) <= 1)
  {
    hide Step;
    StepTrace(m, s);
    var tr := match Step(m, s) case Running(t) => t.tr case Done(f) => f.tr;
    if tr != s.tr {
      var req :| tr == s.tr + [Event(req, m.host(req, s.tr))];
      CountSnoc(s.tr, Event(req, m.host(req, s.tr)), it);
    }
  }

  // In every reachable state of every compiled program, however its loops nest and
  // whatever closes throw, no iterator has been closed more often than once.
  lemma ClosedAtMostOnce(m: Machine, lay: Layout, body: Stmts, st: Store, s0: State, n: nat, t: State, it: Val)
    requires Compiled(m, lay, body) && WfLayout(lay) && WfStmts(lay, body) && Entered(lay, st, s0) && s0.tr == []
    requires FreshIterators(m.host) && Runs(m, s0, n, t)
    ensures Closes(t.tr, it) <= 1
  {
    hide Step;
    var r := ExecAll(m.host, body, st, [], n);
    CompileCorrect(m, lay, body, st, s0, n);
    AllCovered(m.host, lay, body, st, [], n, it);
    EmptyCounts(it);
    if r.c.OutOfFuel? {
      var k: nat, u :| n <= k && Runs(m, s0, k, u) && u.tr == r.tr;
      Later(m, s0, n, t, k, u, it);
    } else {
      var f := EndsIn(m, lay, s0, r);
      var k: nat, u :| Runs(m, s0, k, u) && Step(m, u) == Done(f);
      assert n <= k by {
        if n > k {
          var v := RunsSplit(m, s0, n, k, t);
          RunsDeterministic(m, s0, k, u, v);
        }
      }
      Later(m, s0, n, t, k, u, it);
      StepCounts(m, u, it);
    }
  }

  lemma EmptyCounts(it: Val)
    ensures Gets([], it) == 0 && Closes([], it) == 0
  {
  }

  // A later state of the same run has at least the closes, and no iterator twice.
  lemma Later(m: Machine, s0: State, n: nat, t: State, k: nat, u: State, it: Val)
    requires Runs(m, s0, n, t) && Runs(m, s0, k, u) && n <= k && s0.tr == [] && FreshIterators(m.host)
    ensures Closes(t.tr, it) <= Closes(u.tr, it) && Gets(u.tr, it) <= 1
  {
    hide Runs; hide FreshIterators; hide Gets; hide Closes;
    var v := RunsSplit(m, s0, k, n, u);
    RunsDeterministic(m, s0, n, t, v);
    EmptyCounts(it);
    RunTrace(m, s0, k, u, it);
    RunTrace(m, t, k - n, u, it);
  }
}
