/**
 Guard elision for the temporal dead zone (crates/v12-bccompiler/src/model.rs, with the
 regions stmt.rs opens).  A reference to a `let` or `const` is normally guarded by a
 test of the binding's flag.  The guard is left out when the declaration was emitted
 earlier in straight-line code of the same unit.  The binding of a `for-of` or `for-in`
 head counts as declared there although the loop may run no round at all; what saves it is
 scoping, since nothing behind the loop can mention it.  The theorem: on every run of a
 scoped program, a reference emitted without a guard finds the flag already written, and
 the code throws at exactly the references where a plain evaluator, which keeps its own
 record of the declarations completed, throws.
 */
module Tdz {
  type Sym = nat

  // ---- source -----------------------------------------------------------

  // Expressions matter only for the bindings they mention, in order.  `Each` is a `for-of`
  // or `for-in` loop: it binds `heads` in every round, mentioning `target` as it does.  A
  // labelled loop or switch is the loop or switch itself.
  datatype Stmt =
    | Use(refs: seq<Sym>)
    | Declare(x: Sym, init: seq<Sym>)
    | Seq(first: Stmt, second: Stmt)
    | If(test: seq<Sym>, thn: Stmt, els: Stmt)
    | Loop(head: Stmt, test: seq<Sym>, body: Stmt, update: seq<Sym>)
    | DoLoop(body: Stmt, test: seq<Sym>)
    | Each(rhs: seq<Sym>, target: seq<Sym>, heads: seq<Sym>, body: Stmt)
    | Labeled(body: Stmt)
    | Switch(disc: seq<Sym>, cases: Cases)
    | Leave

  datatype Cases = NoCase | Case(test: seq<Sym>, body: Stmt, rest: Cases)

  // ---- scoping ----------------------------------------------------------

  function Elements(xs: seq<Sym>): set<Sym> { set x | x in xs }

  // What the heads of the loops in s bind.
  function Bound(s: Stmt): set<Sym> {
    match s
    case Seq(a, b) => Bound(a) + Bound(b)
    case If(_, a, b) => Bound(a) + Bound(b)
    case Loop(head, _, body, _) => Bound(head) + Bound(body)
    case DoLoop(body, _) => Bound(body)
    case Each(_, _, heads, body) => Elements(heads) + Bound(body)
    case Labeled(body) => Bound(body)
    case Switch(_, cases) => BoundIn(cases)
    case _ => {}
  }

  function BoundIn(cs: Cases): set<Sym> { if cs.NoCase? then {} else Bound(cs.body) + BoundIn(cs.rest) }

  // Nothing in s mentions a binding of `gone`, nor one of a loop head behind that loop.
  predicate Scoped(s: Stmt, gone: set<Sym>) {
    match s
    case Use(refs) => Elements(refs) !! gone
    case Declare(_, init) => Elements(init) !! gone
    case Seq(a, b) => Scoped(a, gone) && Scoped(b, gone + Bound(a))
    case If(t, a, b) => Elements(t) !! gone && Scoped(a, gone) && Scoped(b, gone)
    case Loop(head, t, body, update) =>
      var g := gone + Bound(head);
      Scoped(head, gone) && Elements(t) !! g && Scoped(body, g) && Elements(update) !! g
    case DoLoop(body, t) => Scoped(body, gone) && Elements(t) !! gone
    case Each(rhs, target, heads, body) =>
      Elements(rhs) !! gone && Elements(target) !! gone && Scoped(body, gone - Elements(heads))
    case Labeled(body) => Scoped(body, gone)
    case Switch(disc, cases) => Elements(disc) !! gone && ScopedCases(cases, gone)
    case Leave => true
  }

  predicate ScopedCases(cs: Cases, gone: set<Sym>) {
    cs.Case? ==> Elements(cs.test) !! gone && Scoped(cs.body, gone) && ScopedCases(cs.rest, gone)
  }

  // ---- emitted code -----------------------------------------------------

  datatype Code =
    | Nop
    | Ref(x: Sym, guarded: bool)
    | SetFlag(x: Sym)
    | Then(first: Code, second: Code)
    | Choice(thn: Code, els: Code)
    | Repeat(test: Code, body: Code, update: Code)
    | RepeatUntil(body: Code, test: Code)
    | Catch(body: Code)
    | Jump(tests: Code, bodies: Codes)
    | Exit

  datatype Codes = NoCode | Codes(head: Code, tail: Codes)

  // ---- emission ---------------------------------------------------------

  // What emission tracks: how many regions are open, and which bindings are known
  // to be initialized.
  datatype State = State(depth: nat, known: set<Sym>)

  function EmitRefs(refs: seq<Sym>, st: State): Code {
    if refs == [] then Nop
    else Then(Ref(refs[0], refs[0] !in st.known), EmitRefs(refs[1..], st))
  }

  // Declaring: the initializer, then the flag; only straight-line declarations are
  // remembered.
  function Declared(x: Sym, st: State): State {
    if st.depth == 0 then st.(known := st.known + {x}) else st
  }

  function AllDeclared(xs: seq<Sym>, st: State): State {
    if st.depth == 0 then st.(known := st.known + Elements(xs)) else st
  }

  function SetFlags(xs: seq<Sym>): Code { if xs == [] then Nop else Then(SetFlag(xs[0]), SetFlags(xs[1..])) }

  function Inside(st: State): State { st.(depth := st.depth + 1) }

  function Outside(st: State): State { if st.depth > 0 then st.(depth := st.depth - 1) else st }

  function Emit(s: Stmt, st: State): (Code, State)
    decreases s
  {
    match s
    case Use(refs) => (EmitRefs(refs, st), st)
    case Declare(x, init) => (Then(EmitRefs(init, st), SetFlag(x)), Declared(x, st))
    case Seq(a, b) =>
      var (ca, st1) := Emit(a, st);
      var (cb, st2) := Emit(b, st1);
      (Then(ca, cb), st2)
    case If(t, a, b) =>
      var st0 := Inside(st);
      var (ca, st1) := Emit(a, st0);
      var (cb, st2) := Emit(b, st1);
      (Then(EmitRefs(t, st0), Choice(ca, cb)), Outside(st2))
    case Loop(head, t, body, update) =>
      var (ch, st1) := Emit(head, st);
      var ct := EmitRefs(t, st1);
      var (cb, st2) := Emit(body, Inside(st1));
      var st3 := Outside(st2);
      (Then(ch, Repeat(ct, cb, EmitRefs(update, st3))), st3)
    case DoLoop(body, t) =>
      var (cb, st1) := Emit(body, Inside(st));
      var st2 := Outside(st1);
      (RepeatUntil(cb, EmitRefs(t, st2)), st2)
    case Each(rhs, target, heads, body) =>
      var (cb, st1) := Emit(body, Inside(AllDeclared(heads, st)));
      var round := Then(Then(EmitRefs(target, st), SetFlags(heads)), cb);
      (Then(EmitRefs(rhs, st), Repeat(Nop, round, Nop)), Outside(st1))
    case Labeled(body) =>
      var (cb, st1) := Emit(body, Inside(st));
      (Catch(cb), Outside(st1))
    case Switch(disc, cases) =>
      var tests := Then(EmitRefs(disc, st), EmitTests(cases, st));
      var (bodies, st1) := EmitBodies(cases, Inside(st));
      (Jump(tests, bodies), Outside(st1))
    case Leave => (Exit, st)
  }

  function EmitTests(cs: Cases, st: State): Code
    decreases cs
  {
    if cs.NoCase? then Nop else Then(EmitRefs(cs.test, st), Choice(Nop, EmitTests(cs.rest, st)))
  }

  function EmitBodies(cs: Cases, st: State): (Codes, State)
    decreases cs
  {
    if cs.NoCase? then (NoCode, st) else
    var (c, st1) := Emit(cs.body, st);
    var (more, st2) := EmitBodies(cs.rest, st1);
    (Codes(c, more), st2)
  }

  // ---- runs -------------------------------------------------------------

  // Every decision (branch taken, loop left, exit caught) is read off a list of
  // choices, so every run of the code is the run of some list.  A run gets through, is
  // left by a jump, throws at a reference, or is cut short when the fuel runs out.
  datatype Left = Through | Jumped | Threw(x: Sym) | Cut

  datatype Run = Run(ok: bool, flags: set<Sym>, left: Left, rest: seq<nat>)

  function Pick(o: seq<nat>): nat { if o == [] then 0 else o[0] }

  function Next(o: seq<nat>): seq<nat> { if o == [] then o else o[1..] }

  // Where a jump out of a loop body goes: on with the next round, behind the loop, or
  // further out.
  function Caught(left: Left, o: seq<nat>): Left { if left.Jumped? && Pick(o) == 2 then Through else left }

  predicate Again(left: Left, o: seq<nat>) { left.Through? || (left.Jumped? && Pick(o) == 1) }

  // A jump uses up one choice.
  function Past(left: Left, o: seq<nat>): seq<nat> { if left.Jumped? then Next(o) else o }

  // `ok` is whether every unguarded reference found its flag.
  function Exec(c: Code, flags: set<Sym>, o: seq<nat>, fuel: nat): Run
    decreases fuel, c
  {
    match c
    case Nop => Run(true, flags, Through, o)
    case Ref(x, guarded) =>
      if x in flags then Run(true, flags, Through, o)
      else if guarded then Run(true, flags, Threw(x), o) else Run(false, flags, Through, o)
    case SetFlag(x) => Run(true, flags + {x}, Through, o)
    case Then(a, b) =>
      var r := Exec(a, flags, o, fuel);
      if !r.ok || !r.left.Through? then r else Exec(b, r.flags, r.rest, fuel)
    case Choice(a, b) => if Pick(o) == 0 then Exec(a, flags, Next(o), fuel) else Exec(b, flags, Next(o), fuel)
    case Repeat(t, body, update) =>
      if fuel == 0 then Run(true, flags, Cut, o) else
      var r := Exec(t, flags, o, fuel);
      if !r.ok || !r.left.Through? then r
      else if Pick(r.rest) == 0 then r.(rest := Next(r.rest))
      else
        var b := Exec(body, r.flags, Next(r.rest), fuel);
        if !b.ok || !Again(b.left, b.rest) then b.(left := Caught(b.left, b.rest), rest := Past(b.left, b.rest))
        else
          var u := Exec(update, b.flags, Past(b.left, b.rest), fuel);
          if !u.ok || !u.left.Through? then u else Exec(c, u.flags, u.rest, fuel - 1)
    case RepeatUntil(body, t) =>
      if fuel == 0 then Run(true, flags, Cut, o) else
      var b := Exec(body, flags, o, fuel);
      if !b.ok || !Again(b.left, b.rest) then b.(left := Caught(b.left, b.rest), rest := Past(b.left, b.rest))
      else
        var r := Exec(t, b.flags, Past(b.left, b.rest), fuel);
        if !r.ok || !r.left.Through? then r
        else if Pick(r.rest) == 0 then r.(rest := Next(r.rest))
        else Exec(c, r.flags, Next(r.rest), fuel - 1)
    case Catch(body) =>
      var r := Exec(body, flags, o, fuel);
      r.(left := Caught(r.left, r.rest), rest := Past(r.left, r.rest))
    case Jump(tests, bodies) =>
      var r := Exec(tests, flags, o, fuel);
      if !r.ok || !r.left.Through? then r else
      var b := ExecFrom(bodies, Pick(r.rest), r.flags, Next(r.rest), fuel);
      b.(left := Caught(b.left, b.rest), rest := Past(b.left, b.rest))
    case Exit => Run(true, flags, Jumped, o)
  }

  // Bodies from the k-th on, falling through.
  function ExecFrom(cs: Codes, k: nat, flags: set<Sym>, o: seq<nat>, fuel: nat): Run
    decreases fuel, cs
  {
    if cs.NoCode? then Run(true, flags, Through, o)
    else if k > 0 then ExecFrom(cs.tail, k - 1, flags, o, fuel)
    else
      var r := Exec(cs.head, flags, o, fuel);
      if !r.ok || !r.left.Through? then r else ExecFrom(cs.tail, 0, r.flags, r.rest, fuel)
  }

  // ---- the evaluator ----------------------------------------------------

  // The program itself, run on the same choices: a reference to a binding whose
  // declaration has not been completed throws.
  datatype Outcome = Outcome(done: set<Sym>, left: Left, rest: seq<nat>)

  function Mentioned(refs: seq<Sym>, done: set<Sym>, o: seq<nat>): Outcome {
    if refs == [] then Outcome(done, Through, o)
    else if refs[0] !in done then Outcome(done, Threw(refs[0]), o) else Mentioned(refs[1..], done, o)
  }

  // A loop body that ends like b: how the loop goes on, or does not.
  function Ended(b: Outcome): Outcome { Outcome(b.done, Caught(b.left, b.rest), Past(b.left, b.rest)) }

  function Evaluate(s: Stmt, done: set<Sym>, o: seq<nat>, fuel: nat): Outcome
    decreases fuel, s, 1
  {
    match s
    case Use(refs) => Mentioned(refs, done, o)
    case Declare(x, init) =>
      var r := Mentioned(init, done, o);
      if r.left.Through? then r.(done := done + {x}) else r
    case Seq(a, b) =>
      var r := Evaluate(a, done, o, fuel);
      if r.left.Through? then Evaluate(b, r.done, r.rest, fuel) else r
    case If(t, a, b) =>
      var r := Mentioned(t, done, o);
      if !r.left.Through? then r
      else if Pick(o) == 0 then Evaluate(a, done, Next(o), fuel) else Evaluate(b, done, Next(o), fuel)
    case Loop(head, _, _, _) =>
      var r := Evaluate(head, done, o, fuel);
      if r.left.Through? then Rounds(s, r.done, r.rest, fuel) else r
    case DoLoop(_, _) => DoRounds(s, done, o, fuel)
    case Each(rhs, _, _, _) =>
      var r := Mentioned(rhs, done, o);
      if r.left.Through? then EachRounds(s, done, o, fuel) else r
    case Labeled(body) => Ended(Evaluate(body, done, o, fuel))
    case Switch(disc, cases) =>
      var r := Mentioned(disc, done, o);
      if !r.left.Through? then r else
      var t := Tests(cases, done, o);
      if !t.left.Through? then t else Ended(Clauses(cases, Pick(t.rest), done, Next(t.rest), fuel))
    case Leave => Outcome(done, Jumped, o)
  }

  // Rounds of a loop past its head: test, body, update.
  function Rounds(s: Stmt, done: set<Sym>, o: seq<nat>, fuel: nat): Outcome
    requires s.Loop?
    decreases fuel, s, 0
  {
    if fuel == 0 then Outcome(done, Cut, o) else
    var t := Mentioned(s.test, done, o);
    if !t.left.Through? then t
    else if Pick(o) == 0 then Outcome(done, Through, Next(o))
    else
      var b := Evaluate(s.body, done, Next(o), fuel);
      if !Again(b.left, b.rest) then Ended(b) else
      var u := Mentioned(s.update, b.done, Past(b.left, b.rest));
      if u.left.Through? then Rounds(s, u.done, u.rest, fuel - 1) else u
  }

  function DoRounds(s: Stmt, done: set<Sym>, o: seq<nat>, fuel: nat): Outcome
    requires s.DoLoop?
    decreases fuel, s, 0
  {
    if fuel == 0 then Outcome(done, Cut, o) else
    var b := Evaluate(s.body, done, o, fuel);
    if !Again(b.left, b.rest) then Ended(b) else
    var t := Mentioned(s.test, b.done, Past(b.left, b.rest));
    if !t.left.Through? then t
    else if Pick(t.rest) == 0 then t.(rest := Next(t.rest))
    else DoRounds(s, t.done, Next(t.rest), fuel - 1)
  }

  // Rounds of a `for-of`: every round binds the heads before the body.
  function EachRounds(s: Stmt, done: set<Sym>, o: seq<nat>, fuel: nat): Outcome
    requires s.Each?
    decreases fuel, s, 0
  {
    if fuel == 0 then Outcome(done, Cut, o)
    else if Pick(o) == 0 then Outcome(done, Through, Next(o))
    else
      var t := Mentioned(s.target, done, Next(o));
      if !t.left.Through? then t else
      var b := Evaluate(s.body, done + Elements(s.heads), t.rest, fuel);
      if Again(b.left, b.rest) then EachRounds(s, b.done, Past(b.left, b.rest), fuel - 1) else Ended(b)
  }

  // Tests up to the one that matches, bodies from the k-th on.
  function Tests(cs: Cases, done: set<Sym>, o: seq<nat>): Outcome {
    if cs.NoCase? then Outcome(done, Through, o) else
    var r := Mentioned(cs.test, done, o);
    if !r.left.Through? then r
    else if Pick(o) == 0 then Outcome(done, Through, Next(o)) else Tests(cs.rest, done, Next(o))
  }

  function Clauses(cs: Cases, k: nat, done: set<Sym>, o: seq<nat>, fuel: nat): Outcome
    decreases fuel, cs, 0
  {
    if cs.NoCase? then Outcome(done, Through, o)
    else if k > 0 then Clauses(cs.rest, k - 1, done, o, fuel)
    else
      var r := Evaluate(cs.body, done, o, fuel);
      if r.left.Through? then Clauses(cs.rest, 0, r.done, r.rest, fuel) else r
  }

  // ---- what is known ----------------------------------------------------

  // What s declares in straight-line code, outside every region it opens.
  function Straight(s: Stmt): set<Sym> {
    match s
    case Declare(x, _) => {x}
    case Seq(a, b) => Straight(a) + Straight(b)
    case Loop(head, _, _, _) => Straight(head)
    case Each(_, _, heads, _) => Elements(heads)
    case _ => {}
  }

  // Emission gives regions back balanced, learns nothing inside a region, and exactly
  // what is declared in straight-line code outside.
  lemma {:induction false} EmitBalanced(s: Stmt, st: State)
    ensures var st1 := Emit(s, st).1;
            && st1.depth == st.depth && st.known <= st1.known && (st.depth > 0 ==> st1 == st)
            && (st.depth == 0 ==> st1.known == st.known + Straight(s))
    decreases s
  {
    match s
    case Use(_) =>
    case Declare(_, _) =>
    case Seq(a, b) => EmitBalanced(a, st); EmitBalanced(b, Emit(a, st).1);
    case If(_, a, b) => EmitBalanced(a, Inside(st)); EmitBalanced(b, Emit(a, Inside(st)).1);
    case Loop(head, _, body, _) => EmitBalanced(head, st); EmitBalanced(body, Inside(Emit(head, st).1));
    case DoLoop(body, _) => EmitBalanced(body, Inside(st));
    case Each(_, _, heads, body) => EmitBalanced(body, Inside(AllDeclared(heads, st)));
    case Labeled(body) => EmitBalanced(body, Inside(st));
    case Switch(_, cases) => BodiesBalanced(cases, Inside(st));
    case Leave =>
  }

  lemma {:induction false} BodiesBalanced(cs: Cases, st: State)
    requires st.depth > 0
    ensures EmitBodies(cs, st).1 == st
    decreases cs
  {
    if cs.Case? {
      EmitBalanced(cs.body, st);
      BodiesBalanced(cs.rest, Emit(cs.body, st).1);
    }
  }

  // ---- which guards are left out ----------------------------------------

  datatype Mention = Mention(x: Sym, guarded: bool)

  // The references of code, in order.
  function Guards(c: Code): seq<Mention> {
    match c
    case Ref(x, guarded) => [Mention(x, guarded)]
    case Then(a, b) => Guards(a) + Guards(b)
    case Choice(a, b) => Guards(a) + Guards(b)
    case Repeat(t, body, update) => Guards(t) + Guards(body) + Guards(update)
    case RepeatUntil(body, t) => Guards(body) + Guards(t)
    case Catch(body) => Guards(body)
    case Jump(tests, bodies) => Guards(tests) + GuardsIn(bodies)
    case _ => []
  }

  function GuardsIn(cs: Codes): seq<Mention> { if cs.NoCode? then [] else Guards(cs.head) + GuardsIn(cs.tail) }

  function Mentions(refs: seq<Sym>, known: set<Sym>): seq<Mention> {
    if refs == [] then [] else [Mention(refs[0], refs[0] !in known)] + Mentions(refs[1..], known)
  }

  // The references of a program, each to be guarded unless its declaration lies in
  // straight-line code before it: `known` is what was declared so before s, and a
  // declaration inside a region does not count.
  function Asked(s: Stmt, known: set<Sym>, inside: bool): seq<Mention>
    decreases s
  {
    match s
    case Use(refs) => Mentions(refs, known)
    case Declare(_, init) => Mentions(init, known)
    case Seq(a, b) => Asked(a, known, inside) + Asked(b, if inside then known else known + Straight(a), inside)
    case If(t, a, b) => Mentions(t, known) + (Asked(a, known, true) + Asked(b, known, true))
    case Loop(head, t, body, update) =>
      var k := if inside then known else known + Straight(head);
      Asked(head, known, inside) + (Mentions(t, k) + Asked(body, k, true) + Mentions(update, k))
    case DoLoop(body, t) => Asked(body, known, true) + Mentions(t, known)
    case Each(rhs, target, heads, body) =>
      var k := if inside then known else known + Elements(heads);
      Mentions(rhs, known) + (Mentions(target, known) + Asked(body, k, true))
    case Labeled(body) => Asked(body, known, true)
    case Switch(disc, cases) => Mentions(disc, known) + AskedTests(cases, known) + AskedIn(cases, known)
    case Leave => []
  }

  function AskedTests(cs: Cases, known: set<Sym>): seq<Mention> {
    if cs.NoCase? then [] else Mentions(cs.test, known) + AskedTests(cs.rest, known)
  }

  function AskedIn(cs: Cases, known: set<Sym>): seq<Mention>
    decreases cs
  {
    if cs.NoCase? then [] else Asked(cs.body, known, true) + AskedIn(cs.rest, known)
  }

  lemma {:induction false} RefsGuarded(refs: seq<Sym>, st: State)
    ensures Guards(EmitRefs(refs, st)) == Mentions(refs, st.known)
    decreases |refs|
  {
    if refs != [] { RefsGuarded(refs[1..], st); }
  }

  lemma {:induction false} NoMention(xs: seq<Sym>)
    ensures Guards(SetFlags(xs)) == []
    decreases |xs|
  {
    if xs != [] { NoMention(xs[1..]); }
  }

  // A guard is left out exactly behind a straight-line declaration.
  lemma {:induction false} GuardsExact(s: Stmt, st: State)
    ensures Guards(Emit(s, st).0) == Asked(s, st.known, st.depth > 0)
    decreases s, 1
  {
    match s
    case Use(refs) => RefsGuarded(refs, st);
    case Declare(_, init) => RefsGuarded(init, st);
    case Seq(a, b) => EmitBalanced(a, st); GuardsExact(a, st); GuardsExact(b, Emit(a, st).1);
    case If(_, _, _) => IfGuarded(s, st);
    case Loop(_, _, _, _) => LoopGuarded(s, st);
    case DoLoop(body, t) => EmitBalanced(body, Inside(st)); GuardsExact(body, Inside(st)); RefsGuarded(t, st);
    case Each(_, _, _, _) => EachGuarded(s, st);
    case Labeled(body) => GuardsExact(body, Inside(st));
    case Switch(disc, cases) =>
      RefsGuarded(disc, st); TestsGuarded(cases, st); BodiesGuarded(cases, Inside(st));
    case Leave =>
  }

  lemma {:induction false} IfGuarded(s: Stmt, st: State)
    requires s.If?
    ensures Guards(Emit(s, st).0) == Asked(s, st.known, st.depth > 0)
    decreases s, 0
  {
    EmitBalanced(s.thn, Inside(st));
    RefsGuarded(s.test, Inside(st)); GuardsExact(s.thn, Inside(st)); GuardsExact(s.els, Inside(st));
    var (ca, cb) := (Emit(s.thn, Inside(st)).0, Emit(s.els, Inside(st)).0);
    assert Guards(Choice(ca, cb)) == Guards(ca) + Guards(cb);
  }

  lemma {:induction false} LoopGuarded(s: Stmt, st: State)
    requires s.Loop?
    ensures Guards(Emit(s, st).0) == Asked(s, st.known, st.depth > 0)
    decreases s, 0
  {
    EmitBalanced(s.head, st);
    var st1 := Emit(s.head, st).1;
    EmitBalanced(s.body, Inside(st1));
    GuardsExact(s.head, st); RefsGuarded(s.test, st1); GuardsExact(s.body, Inside(st1)); RefsGuarded(s.update, st1);
    var (t, b, u) := (EmitRefs(s.test, st1), Emit(s.body, Inside(st1)).0, EmitRefs(s.update, st1));
    assert Guards(Repeat(t, b, u)) == Guards(t) + Guards(b) + Guards(u);
  }

  lemma {:induction false} EachGuarded(s: Stmt, st: State)
    requires s.Each?
    ensures Guards(Emit(s, st).0) == Asked(s, st.known, st.depth > 0)
    decreases s, 0
  {
    var st1 := Inside(AllDeclared(s.heads, st));
    RefsGuarded(s.rhs, st); RefsGuarded(s.target, st); NoMention(s.heads); GuardsExact(s.body, st1);
    var cb := Emit(s.body, st1).0;
    var (c, f) := (EmitRefs(s.target, st), SetFlags(s.heads));
    assert Guards(Then(c, f)) == Guards(c) && Guards(Nop) == [];
    assert Guards(Then(Then(c, f), cb)) == Guards(c) + Guards(cb);
  }

  lemma {:induction false} TestsGuarded(cs: Cases, st: State)
    ensures Guards(EmitTests(cs, st)) == AskedTests(cs, st.known)
    decreases cs
  {
    if cs.Case? {
      RefsGuarded(cs.test, st);
      TestsGuarded(cs.rest, st);
      assert Guards(Choice(Nop, EmitTests(cs.rest, st))) == Guards(EmitTests(cs.rest, st));
    }
  }

  lemma {:induction false} BodiesGuarded(cs: Cases, st: State)
    requires st.depth > 0
    ensures GuardsIn(EmitBodies(cs, st).0) == AskedIn(cs, st.known)
    decreases cs, 0
  {
    if cs.Case? {
      EmitBalanced(cs.body, st);
      GuardsExact(cs.body, st);
      BodiesGuarded(cs.rest, st);
    }
  }

  // ---- soundness --------------------------------------------------------

  // A run of emitted code against the evaluator: no unguarded reference misses its flag,
  // the run ends as the program does, with the flags of exactly the completed declarations,
  // and what is known and in scope has its flag written.
  ghost predicate Sound(r: Run, e: Outcome, flags: set<Sym>, known: set<Sym>, gone: set<Sym>) {
    && r == Run(true, e.done, e.left, e.rest)
    && flags <= r.flags && (r.left.Through? ==> known <= r.flags + gone)
  }

  lemma {:induction false} RefsSound(refs: seq<Sym>, st: State, gone: set<Sym>, flags: set<Sym>, o: seq<nat>, fuel: nat)
    requires st.known <= flags + gone && Elements(refs) !! gone
    ensures var e := Mentioned(refs, flags, o);
            && Sound(Exec(EmitRefs(refs, st), flags, o, fuel), e, flags, st.known, gone)
            && e.done == flags && e.rest == o && (e.left.Through? || e.left.Threw?)
    decreases |refs|
  {
    if refs != [] {
      assert refs[0] in Elements(refs) && Elements(refs[1..]) <= Elements(refs);
      RefsSound(refs[1..], st, gone, flags, o, fuel);
    }
  }

  lemma {:induction false} FlagsSet(xs: seq<Sym>, flags: set<Sym>, o: seq<nat>, fuel: nat)
    ensures Exec(SetFlags(xs), flags, o, fuel) == Run(true, flags + Elements(xs), Through, o)
    decreases |xs|
  {
    if xs != [] {
      FlagsSet(xs[1..], flags + {xs[0]}, o, fuel);
      assert Elements(xs) == {xs[0]} + Elements(xs[1..]);
      assert flags + Elements(xs) == flags + {xs[0]} + Elements(xs[1..]);
    } else {
      assert flags + Elements(xs) == flags;
    }
  }

  // Guard elision is sound: run scoped code any way you like from flags that include the
  // known bindings in scope, it does what the program does.
  lemma {:induction false} EmitSound(s: Stmt, st: State, gone: set<Sym>, flags: set<Sym>, o: seq<nat>, fuel: nat)
    requires Scoped(s, gone) && st.known <= flags + gone
    ensures Sound(Exec(Emit(s, st).0, flags, o, fuel), Evaluate(s, flags, o, fuel), flags, Emit(s, st).1.known,
                  gone + Bound(s))
    decreases fuel, s, 1
  {
    EmitBalanced(s, st);
    match s
    case Use(refs) => RefsSound(refs, st, gone, flags, o, fuel);
    case Declare(_, init) => RefsSound(init, st, gone, flags, o, fuel);
    case Seq(a, b) =>
      EmitSound(a, st, gone, flags, o, fuel);
      EmitBalanced(a, st);
      var (ca, st1) := Emit(a, st);
      var r := Exec(ca, flags, o, fuel);
      if r.left.Through? { EmitSound(b, st1, gone + Bound(a), r.flags, r.rest, fuel); }
    case If(t, a, b) => IfSound(s, st, gone, flags, o, fuel);
    case Loop(head, t, body, update) =>
      EmitSound(head, st, gone, flags, o, fuel);
      EmitBalanced(head, st);
      var (ch, st1) := Emit(head, st);
      var r := Exec(ch, flags, o, fuel);
      if r.left.Through? { RepeatSound(s, st1, gone + Bound(head), r.flags, r.rest, fuel); }
    case DoLoop(_, _) => UntilSound(s, st, gone, flags, o, fuel);
    case Each(rhs, target, heads, body) =>
      RefsSound(rhs, st, gone, flags, o, fuel);
      EmitBalanced(body, Inside(AllDeclared(heads, st)));
      if Exec(EmitRefs(rhs, st), flags, o, fuel).left.Through? { EachSound(s, st, gone, flags, o, fuel); }
    case Labeled(body) => EmitBalanced(body, Inside(st)); EmitSound(body, Inside(st), gone, flags, o, fuel);
    case Switch(_, _) => SwitchSound(s, st, gone, flags, o, fuel);
    case Leave =>
  }

  lemma {:induction false} SwitchSound(s: Stmt, st: State, gone: set<Sym>, flags: set<Sym>, o: seq<nat>, fuel: nat)
    requires s.Switch? && Scoped(s, gone) && st.known <= flags + gone
    ensures Sound(Exec(Emit(s, st).0, flags, o, fuel), Evaluate(s, flags, o, fuel), flags, Emit(s, st).1.known, gone)
    decreases fuel, s, 0
  {
    RefsSound(s.disc, st, gone, flags, o, fuel);
    TestsSound(s.cases, st, gone, flags, o, fuel);
    BodiesBalanced(s.cases, Inside(st));
    var (d, t) := (EmitRefs(s.disc, st), EmitTests(s.cases, st));
    var r := Exec(Then(d, t), flags, o, fuel);
    assert r == if Mentioned(s.disc, flags, o).left.Through? then Exec(t, flags, o, fuel) else Exec(d, flags, o, fuel);
    if r.left.Through? { BodiesSound(s.cases, Inside(st), gone, Pick(r.rest), flags, Next(r.rest), fuel); }
  }

  lemma {:induction false} IfSound(s: Stmt, st: State, gone: set<Sym>, flags: set<Sym>, o: seq<nat>, fuel: nat)
    requires s.If? && Scoped(s, gone) && st.known <= flags + gone
    ensures Sound(Exec(Emit(s, st).0, flags, o, fuel), Evaluate(s, flags, o, fuel), flags, Emit(s, st).1.known, gone)
    decreases fuel, s, 0
  {
    var st0 := Inside(st);
    EmitBalanced(s.thn, st0);
    EmitBalanced(s.els, st0);
    RefsSound(s.test, st0, gone, flags, o, fuel);
    var r := Exec(EmitRefs(s.test, st0), flags, o, fuel);
    if r.left.Through? {
      EmitSound(s.thn, st0, gone, flags, Next(o), fuel);
      EmitSound(s.els, st0, gone, flags, Next(o), fuel);
      assert gone <= gone + Bound(s.thn) && st0.known == st.known;
    }
  }

  lemma {:induction false} TestsSound(cs: Cases, st: State, gone: set<Sym>, flags: set<Sym>, o: seq<nat>, fuel: nat)
    requires ScopedCases(cs, gone) && st.known <= flags + gone
    ensures var e := Tests(cs, flags, o);
            Sound(Exec(EmitTests(cs, st), flags, o, fuel), e, flags, st.known, gone) && e.done == flags
    decreases cs
  {
    if cs.Case? {
      RefsSound(cs.test, st, gone, flags, o, fuel);
      TestsSound(cs.rest, st, gone, flags, Next(o), fuel);
      var more := EmitTests(cs.rest, st);
      assert Exec(Choice(Nop, more), flags, o, fuel) ==
             if Pick(o) == 0 then Exec(Nop, flags, Next(o), fuel) else Exec(more, flags, Next(o), fuel);
    }
  }

  lemma {:induction false} BodiesSound(cs: Cases, st: State, gone: set<Sym>, k: nat, flags: set<Sym>, o: seq<nat>,
                                       fuel: nat)
    requires st.depth > 0 && ScopedCases(cs, gone) && st.known <= flags + gone
    ensures Sound(ExecFrom(EmitBodies(cs, st).0, k, flags, o, fuel), Clauses(cs, k, flags, o, fuel), flags, st.known,
                  gone)
    decreases fuel, cs, 0
  {
    if cs.Case? {
      EmitBalanced(cs.body, st);
      if k > 0 {
        BodiesSound(cs.rest, st, gone, k - 1, flags, o, fuel);
      } else {
        EmitSound(cs.body, st, gone, flags, o, fuel);
        var r := Exec(Emit(cs.body, st).0, flags, o, fuel);
        assert st.known <= r.flags + gone;
        if r.left.Through? { BodiesSound(cs.rest, st, gone, 0, r.flags, r.rest, fuel); }
      }
    }
  }

  // A loop past its head, in the state after the head.
  lemma {:induction false} RepeatSound(s: Stmt, st: State, gone: set<Sym>, flags: set<Sym>, o: seq<nat>, fuel: nat)
    requires s.Loop? && st.known <= flags + gone
    requires Elements(s.test) !! gone && Scoped(s.body, gone) && Elements(s.update) !! gone
    ensures var (cb, st2) := Emit(s.body, Inside(st));
            var st3 := Outside(st2);
            st3 == st
            && Sound(Exec(Repeat(EmitRefs(s.test, st), cb, EmitRefs(s.update, st3)), flags, o, fuel),
                     Rounds(s, flags, o, fuel), flags, st.known, gone)
    decreases fuel, s, 0
  {
    EmitBalanced(s.body, Inside(st));
    var cb := Emit(s.body, Inside(st)).0;
    if fuel > 0 {
      RefsSound(s.test, st, gone, flags, o, fuel);
      if Mentioned(s.test, flags, o).left.Through? && Pick(o) != 0 {
        EmitSound(s.body, Inside(st), gone, flags, Next(o), fuel);
        var b := Exec(cb, flags, Next(o), fuel);
        assert st.known <= b.flags + gone;
        if Again(b.left, b.rest) {
          var o1 := Past(b.left, b.rest);
          RefsSound(s.update, st, gone, b.flags, o1, fuel);
          if Mentioned(s.update, b.flags, o1).left.Through? { RepeatSound(s, st, gone, b.flags, o1, fuel - 1); }
        }
      }
    }
  }

  lemma {:induction false} UntilSound(s: Stmt, st: State, gone: set<Sym>, flags: set<Sym>, o: seq<nat>, fuel: nat)
    requires s.DoLoop? && Scoped(s, gone) && st.known <= flags + gone
    ensures Sound(Exec(Emit(s, st).0, flags, o, fuel), Evaluate(s, flags, o, fuel), flags, Emit(s, st).1.known, gone)
    decreases fuel, s, 0
  {
    EmitBalanced(s.body, Inside(st));
    var cb := Emit(s.body, Inside(st)).0;
    if fuel > 0 {
      EmitSound(s.body, Inside(st), gone, flags, o, fuel);
      var b := Exec(cb, flags, o, fuel);
      assert st.known <= b.flags + gone;
      if Again(b.left, b.rest) {
        var o1 := Past(b.left, b.rest);
        RefsSound(s.test, st, gone, b.flags, o1, fuel);
        if Mentioned(s.test, b.flags, o1).left.Through? && Pick(o1) != 0 {
          UntilSound(s, st, gone, b.flags, Next(o1), fuel - 1);
        }
      }
    }
  }

  // The frame of a `for-of`: nothing is tested or updated, so only the round counts.
  lemma RoundAhead(round: Code, flags: set<Sym>, o: seq<nat>, fuel: nat)
    requires fuel > 0
    ensures Exec(Repeat(Nop, round, Nop), flags, o, fuel) ==
            if Pick(o) == 0 then Run(true, flags, Through, Next(o)) else
            var b := Exec(round, flags, Next(o), fuel);
            if b.ok && Again(b.left, b.rest)
            then Exec(Repeat(Nop, round, Nop), b.flags, Past(b.left, b.rest), fuel - 1)
            else b.(left := Caught(b.left, b.rest), rest := Past(b.left, b.rest))
  {
    assert Exec(Nop, flags, o, fuel) == Run(true, flags, Through, o);
    if Pick(o) != 0 {
      var b := Exec(round, flags, Next(o), fuel);
      var o1 := Past(b.left, b.rest);
      assert Exec(Nop, b.flags, o1, fuel) == Run(true, b.flags, Through, o1);
    }
  }

  // One round: the flags of the heads are written before the body, and what is recorded
  // of them holds there.
  lemma {:induction false} HeadsBound(s: Stmt, st: State, gone: set<Sym>, cb: Code, flags: set<Sym>, o: seq<nat>,
                                      fuel: nat)
    requires s.Each? && Elements(s.target) !! gone && st.known <= flags + gone
    ensures var round := Then(Then(EmitRefs(s.target, st), SetFlags(s.heads)), cb);
            var t := Mentioned(s.target, flags, o);
            Exec(round, flags, o, fuel) ==
            if t.left.Through? then Exec(cb, flags + Elements(s.heads), o, fuel) else Run(true, flags, t.left, o)
    ensures AllDeclared(s.heads, st).known <= flags + Elements(s.heads) + (gone - Elements(s.heads))
  {
    RefsSound(s.target, st, gone, flags, o, fuel);
    FlagsSet(s.heads, flags, o, fuel);
    var (c, f) := (EmitRefs(s.target, st), SetFlags(s.heads));
    var r := Exec(c, flags, o, fuel);
    assert Exec(Then(c, f), flags, o, fuel) ==
           if r.left.Through? then Run(true, flags + Elements(s.heads), Through, o) else r;
  }

  // Rounds of a `for-of`; behind the loop its heads are out of scope.
  lemma {:induction false} EachSound(s: Stmt, st: State, gone: set<Sym>, flags: set<Sym>, o: seq<nat>, fuel: nat)
    requires s.Each? && Scoped(s, gone) && st.known <= flags + gone
    ensures var cb := Emit(s.body, Inside(AllDeclared(s.heads, st))).0;
            var round := Then(Then(EmitRefs(s.target, st), SetFlags(s.heads)), cb);
            Sound(Exec(Repeat(Nop, round, Nop), flags, o, fuel), EachRounds(s, flags, o, fuel), flags, st.known, gone)
    decreases fuel, s, 0
  {
    var st1 := Inside(AllDeclared(s.heads, st));
    var cb := Emit(s.body, st1).0;
    var round := Then(Then(EmitRefs(s.target, st), SetFlags(s.heads)), cb);
    if fuel > 0 {
      RoundAhead(round, flags, o, fuel);
      HeadsBound(s, st, gone, cb, flags, Next(o), fuel);
      RefsSound(s.target, st, gone, flags, Next(o), fuel);
      if Pick(o) != 0 && Mentioned(s.target, flags, Next(o)).left.Through? {
        EmitSound(s.body, st1, gone - Elements(s.heads), flags + Elements(s.heads), Next(o), fuel);
        var b := Exec(cb, flags + Elements(s.heads), Next(o), fuel);
        if Again(b.left, b.rest) { EachSound(s, st, gone, b.flags, Past(b.left, b.rest), fuel - 1); }
      }
    }
  }

  // For a whole unit, which starts with nothing known and no flag written: the code ends
  // as the program does, and so throws at exactly the references where it does.
  lemma ElisionSound(s: Stmt, o: seq<nat>, fuel: nat)
    requires Scoped(s, {})
    ensures var (r, e) := (Exec(Emit(s, State(0, {})).0, {}, o, fuel), Evaluate(s, {}, o, fuel));
            r.ok && r.left == e.left && r.flags == e.done && r.rest == e.rest
  {
    EmitSound(s, State(0, {}), {}, {}, o, fuel);
  }

  // Scoping is what it rests on: `for (let x of []) {} x` would reach x without a guard
  // and without its flag, if that x were the loop's.
  lemma ScopeNeeded(s: Stmt)
    requires s == Seq(Each([], [], [0], Use([])), Use([0]))
    ensures !Scoped(s, {}) && !Exec(Emit(s, State(0, {})).0, {}, [0], 1).ok
  {
    var each := Each([], [], [0], Use([]));
    assert 0 in Elements([0]) && 0 in Bound(each);
    var (ce, st1) := Emit(each, State(0, {}));
    assert 0 in st1.known;
    assert Exec(ce, {}, [0], 1) == Run(true, {}, Through, []);
    assert EmitRefs([0], st1) == Then(Ref(0, false), Nop);
  }

  // ---- the source's own form ----------------------------------------------

  class FnCtx {
    var tdzRegionDepth: nat
    var tdzInitialized: set<Sym>

    ghost function View(): State
      reads this
    {
      State(tdzRegionDepth, tdzInitialized)
    }

    constructor ()
      ensures View() == State(0, {})
    {
      tdzRegionDepth, tdzInitialized := 0, {};
    }

    method EnterRegion()
      modifies this
      ensures View() == Inside(old(View()))
    {
      tdzRegionDepth := tdzRegionDepth + 1;
    }

    method ExitRegion()
      modifies this
      ensures View() == Outside(old(View()))
    {
      if tdzRegionDepth > 0 { tdzRegionDepth := tdzRegionDepth - 1; }
    }

    method References(refs: seq<Sym>) returns (c: Code)
      ensures c == EmitRefs(refs, View())
    {
      c := Nop;
      var i := |refs|;
      assert refs[i..] == [];
      while i > 0
        invariant i <= |refs| && c == EmitRefs(refs[i..], View())
      {
        i := i - 1;
        assert refs[i..][1..] == refs[i + 1..];
        c := Then(Ref(refs[i], refs[i] !in tdzInitialized), c);
      }
    }

    method Init(x: Sym) returns (c: Code)
      modifies this
      ensures c == SetFlag(x) && View() == Declared(x, old(View()))
    {
      c := SetFlag(x);
      if tdzRegionDepth == 0 { tdzInitialized := tdzInitialized + {x}; }
    }

    // The head of a `for-of` or `for-in`, outside the region of the body.
    method InitAll(xs: seq<Sym>) returns (c: Code)
      modifies this
      ensures c == SetFlags(xs) && View() == AllDeclared(xs, old(View()))
    {
      c := Nop;
      var i := |xs|;
      assert xs[i..] == [];
      while i > 0
        invariant i <= |xs| && c == SetFlags(xs[i..])
        invariant View() == AllDeclared(xs[i..], old(View()))
      {
        i := i - 1;
        assert xs[i..][1..] == xs[i + 1..] && Elements(xs[i..]) == {xs[i]} + Elements(xs[i + 1..]);
        c := Then(SetFlag(xs[i]), c);
        if tdzRegionDepth == 0 { tdzInitialized := tdzInitialized + {xs[i]}; }
      }
      assert xs[0..] == xs;
    }

    method Statement(s: Stmt) returns (c: Code)
      modifies this
      ensures (c, View()) == Emit(s, old(View()))
      decreases s
    {
      match s
      case Use(refs) => c := References(refs);
      case Declare(x, init) =>
        var a := References(init);
        var f := Init(x);
        c := Then(a, f);
      case Seq(first, second) =>
        var a := Statement(first);
        var b := Statement(second);
        c := Then(a, b);
      case If(t, thn, els) =>
        EnterRegion();
        var r := References(t);
        var a := Statement(thn);
        var b := Statement(els);
        ExitRegion();
        c := Then(r, Choice(a, b));
      case Loop(head, t, body, update) =>
        var h := Statement(head);
        var r := References(t);
        EnterRegion();
        var b := Statement(body);
        ExitRegion();
        var u := References(update);
        c := Then(h, Repeat(r, b, u));
      case DoLoop(body, t) =>
        EnterRegion();
        var b := Statement(body);
        ExitRegion();
        var r := References(t);
        c := RepeatUntil(b, r);
      case Each(rhs, target, heads, body) =>
        var r := References(rhs);
        var t := References(target);
        var f := InitAll(heads);
        EnterRegion();
        var b := Statement(body);
        ExitRegion();
        c := Then(r, Repeat(Nop, Then(Then(t, f), b), Nop));
      case Labeled(body) =>
        EnterRegion();
        var b := Statement(body);
        ExitRegion();
        c := Catch(b);
      case Switch(disc, cases) =>
        var d := References(disc);
        var t := EmitTests(cases, State(tdzRegionDepth, tdzInitialized));
        EnterRegion();
        var bodies := Bodies(cases);
        ExitRegion();
        c := Jump(Then(d, t), bodies);
      case Leave => c := Exit;
    }

    method Bodies(cs: Cases) returns (c: Codes)
      modifies this
      ensures (c, View()) == EmitBodies(cs, old(View()))
      decreases cs
    {
      if cs.NoCase? { return NoCode; }
      var a := Statement(cs.body);
      var more := Bodies(cs.rest);
      c := Codes(a, more);
    }
  }
}
