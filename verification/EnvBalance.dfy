/**
 Per-iteration environments (crates/v12-bccompiler/src/stmt.rs and model.rs): a loop
 whose variable is captured pushes a fresh environment for every iteration and pops it
 where the body ends; break and continue pop, at the jump, one environment per such
 loop they leave.  The theorem: on every run, the number of environments the frame has
 pushed is a function of the pc alone.
 */
module EnvBalance {
  import opened Words
  import A = Assembly
  import L = Lowering
  import D = Demand

  // ---- source -----------------------------------------------------------

  type Name = string

  datatype Stmt =
    | Plain
    | Seq(first: Stmt, second: Stmt)
    | If(thn: Stmt, els: Stmt)
    | Loop(perIter: bool, name: Option<Name>, body: Stmt)     // while, for, for-of
    | DoLoop(name: Option<Name>, body: Stmt)
    | Labeled(lab: Name, body: Stmt)
    | Switch(name: Option<Name>, bodies: Bodies)
    | Break(want: Option<Name>)
    | Continue(want: Option<Name>)
    | Return

  datatype Bodies = NoBody | Body(isDefault: bool, head: Stmt, tail: Bodies)

  // ---- code -------------------------------------------------------------

  // Instructions as far as environments and control flow go; a branch may go
  // either way.
  datatype Ins = Step | Push | Pop | Goto(l: nat) | Branch(l: nat) | Halt

  // Emission context.  `depths` and `labelDepth` are the static depths: of every
  // instruction, and of every label; `cur` is the lexical depth.
  datatype Cx = Cx(code: seq<Ins>, labels: seq<Option<nat>>, depths: seq<nat>, labelDepth: seq<nat>, cur: nat,
                   failed: bool)

  // An entry of the loop stack, and whether its loop owns a per-iteration environment.
  datatype Entry = Entry(lc: L.LoopCtx, perIter: bool)

  function NewEntry(brk: nat, cont: Option<nat>, name: Option<Name>, perIter: bool): Entry {
    Entry(L.LoopCtx(brk, cont, name, None), perIter)
  }

  function Contexts(ls: seq<Entry>): (r: seq<L.LoopCtx>)
    ensures |r| == |ls| && forall i :: 0 <= i < |ls| ==> r[i] == ls[i].lc
  {
    seq(|ls|, i requires 0 <= i < |ls| => ls[i].lc)
  }

  function Put(cx: Cx, i: Ins): Cx {
    cx.(code := cx.code + [i], depths := cx.depths + [cx.cur])
  }

  function NewLabel(cx: Cx): (Cx, nat) {
    (cx.(labels := cx.labels + [None], labelDepth := cx.labelDepth + [cx.cur]), |cx.labels|)
  }

  function Bind(cx: Cx, l: nat): Cx {
    if l < |cx.labels| && cx.labels[l].None? then cx.(labels := cx.labels[l := Some(|cx.code|)])
      else cx.(failed := true)
  }

  function PushEnv(cx: Cx): Cx { Put(cx, Push).(cur := cx.cur + 1) }

  function PopEnv(cx: Cx): Cx { if cx.cur == 0 then cx.(failed := true) else Put(cx, Pop).(cur := cx.cur - 1) }

  // How many of the loops own a per-iteration environment.
  function PerIters(ls: seq<Entry>): nat {
    if ls == [] then 0 else PerIters(ls[..|ls| - 1]) + if ls[|ls| - 1].perIter then 1 else 0
  }

  // n pops and a jump; the code behind the jump is still inside the loop.
  function Pops(cx: Cx, n: nat): Cx
    decreases n
  {
    if n == 0 then cx else Pops(PopEnv(cx), n - 1)
  }

  // The jump resolves as in the lowering.
  function JumpOut(cx: Cx, ls: seq<Entry>, want: Option<Name>, isCont: bool): Cx {
    var p := L.RPosition(Contexts(ls), want, isCont);
    if p.None? || (isCont && ls[p.value].lc.cont.None?) then cx.(failed := true)
    else
      var lc := ls[p.value].lc;
      Put(Pops(cx, PerIters(ls[p.value..])), Goto(if isCont then lc.cont.value else lc.brk)).(cur := cx.cur)
  }

  function Emit(cx: Cx, ls: seq<Entry>, s: Stmt): Cx
    decreases s
  {
    match s
    case Plain => Put(cx, Step)
    case Seq(a, b) => Emit(Emit(cx, ls, a), ls, b)
    case If(a, b) =>
      var (cx1, elseL) := NewLabel(cx);
      var (cx2, endL) := NewLabel(cx1);
      var cx3 := Emit(Put(cx2, Branch(elseL)), ls, a);
      Bind(Emit(Bind(Put(cx3, Goto(endL)), elseL), ls, b), endL)
    case Loop(perIter, name, body) =>
      var (cx1, top) := NewLabel(cx);
      var (cx2, cont) := NewLabel(cx1);
      var (cx3, end) := NewLabel(cx2);
      var cx4 := Put(Put(Bind(cx3, top), Step), Branch(end));
      var cx5 := if perIter then PushEnv(cx4) else cx4;
      var cx6 := Emit(cx5, ls + [NewEntry(end, Some(cont), name, perIter)], body);
      var cx7 := if perIter then PopEnv(cx6) else cx6;
      Bind(Put(Put(Bind(cx7, cont), Step), Goto(top)), end)
    case DoLoop(name, body) =>
      var (cx1, top) := NewLabel(cx);
      var (cx2, cont) := NewLabel(cx1);
      var (cx3, end) := NewLabel(cx2);
      var cx4 := Emit(Put(Bind(cx3, top), Step), ls + [NewEntry(end, Some(cont), name, false)], body);
      Bind(Put(Bind(cx4, cont), Branch(top)), end)
    case Labeled(lab, body) =>
      var (cx1, end) := NewLabel(cx);
      Bind(Emit(cx1, ls + [NewEntry(end, None, Some(lab), false)], body), end)
    case Switch(name, bodies) =>
      var (cx1, end) := NewLabel(Put(cx, Step));
      if Defaults(bodies) > 1 then cx1.(failed := true) else
      var (cx2, deflt) := if Defaults(bodies) == 1 then NewLabel(cx1) else (cx1, end);
      var (cx3, entries) := EmitTests(cx2, bodies);
      var cx4 := Put(cx3, Goto(deflt));
      Bind(EmitBodies(cx4, ls + [NewEntry(end, None, name, false)], bodies, entries, deflt), end)
    case Break(want) => JumpOut(cx, ls, want, false)
    case Continue(want) => JumpOut(cx, ls, want, true)
    case Return => Put(cx, Halt)
  }

  function Defaults(bs: Bodies): nat {
    if bs.NoBody? then 0 else (if bs.isDefault then 1 else 0) + Defaults(bs.tail)
  }

  // One guarded jump per clause with a test.
  function EmitTests(cx: Cx, bs: Bodies): (Cx, seq<nat>)
    decreases bs
  {
    if bs.NoBody? then (cx, [])
    else if bs.isDefault then EmitTests(cx, bs.tail)
    else
      var (cx1, l) := NewLabel(Put(cx, Step));
      var (cx2, more) := EmitTests(Put(cx1, Branch(l)), bs.tail);
      (cx2, [l] + more)
  }

  function EmitBodies(cx: Cx, ls: seq<Entry>, bs: Bodies, entries: seq<nat>, deflt: nat): Cx
    decreases bs
  {
    if bs.NoBody? then cx
    else if bs.isDefault then EmitBodies(Emit(Bind(cx, deflt), ls, bs.head), ls, bs.tail, entries, deflt)
    else if entries == [] then cx.(failed := true)
    else EmitBodies(Emit(Bind(cx, entries[0]), ls, bs.head), ls, bs.tail, entries[1..], deflt)
  }

  // ---- static consistency -----------------------------------------------

  predicate FallsThrough(i: Ins) { i.Step? || i.Push? || i.Pop? || i.Branch? }

  function Delta(i: Ins): int { if i.Push? then 1 else if i.Pop? then -1 else 0 }

  // The depth of a place in the code, the end included.
  function DepthAt(cx: Cx, pc: nat): nat
    requires |cx.depths| == |cx.code| && pc <= |cx.code|
  {
    if pc < |cx.code| then cx.depths[pc] else cx.cur
  }

  // Every edge of the control flow carries the static depths across.
  ghost predicate Fits(cx: Cx, pc: nat)
    requires |cx.depths| == |cx.code| && |cx.labelDepth| == |cx.labels| && pc < |cx.code|
  {
    var i := cx.code[pc];
    && (FallsThrough(i) ==> DepthAt(cx, pc + 1) == cx.depths[pc] + Delta(i))
    && (i.Goto? || i.Branch? ==> i.l < |cx.labels| && cx.labelDepth[i.l] == cx.depths[pc])
    && (i.Pop? ==> cx.depths[pc] > 0)
  }

  ghost predicate Consistent(cx: Cx) {
    && |cx.depths| == |cx.code| && |cx.labelDepth| == |cx.labels|
    && (forall pc: nat :: pc < |cx.code| ==> Fits(cx, pc))
    && (forall l :: 0 <= l < |cx.labels| && cx.labels[l].Some? ==>
          cx.labels[l].value <= |cx.code| && DepthAt(cx, cx.labels[l].value) == cx.labelDepth[l])
  }

  // From an entry's labels to here lie exactly the environments of the loops since.
  ghost predicate Nested(cx: Cx, ls: seq<Entry>) {
    |cx.labelDepth| == |cx.labels| &&
    forall j :: 0 <= j < |ls| ==> EntryOk(cx, ls, j)
  }

  ghost predicate EntryOk(cx: Cx, ls: seq<Entry>, j: nat)
    requires j < |ls| && |cx.labelDepth| == |cx.labels|
  {
    && ls[j].lc.brk < |cx.labels| && cx.labelDepth[ls[j].lc.brk] + PerIters(ls[j..]) == cx.cur
    && (ls[j].lc.cont.Some? ==>
        ls[j].lc.cont.value < |cx.labels| && cx.labelDepth[ls[j].lc.cont.value] + PerIters(ls[j..]) == cx.cur)
  }

  // cx' extends cx: nothing emitted or decided is changed, and the lexical depth is
  // back where it was.
  ghost predicate Extends(cx: Cx, cx': Cx) {
    && cx.code <= cx'.code && cx.depths <= cx'.depths && cx.labelDepth <= cx'.labelDepth && |cx.labels| <= |cx'.labels|
    && |cx'.labelDepth| == |cx'.labels| && |cx.labelDepth| == |cx.labels| && |cx'.depths| == |cx'.code|
    && |cx.depths| == |cx.code|
    && (if |cx.code| < |cx'.code| then cx'.depths[|cx.code|] == cx.cur else cx'.cur == cx.cur)
    && (forall l :: 0 <= l < |cx.labels| && cx.labels[l].Some? ==> cx'.labels[l] == cx.labels[l])
  }

  // What emitting a construct achieves, unless it failed.
  ghost predicate Good(cx: Cx, cx': Cx) {
    !cx'.failed ==> Extends(cx, cx') && Consistent(cx') && cx'.cur == cx.cur
  }

  lemma PutGood(cx: Cx, i: Ins)
    requires Consistent(cx) && Delta(i) == 0
    requires i.Goto? || i.Branch? ==> i.l < |cx.labels| && cx.labelDepth[i.l] == cx.cur
    ensures Consistent(Put(cx, i)) && Extends(cx, Put(cx, i)) && Put(cx, i).cur == cx.cur
  {
    var cx' := Put(cx, i);
    forall pc: nat | pc < |cx'.code| ensures Fits(cx', pc) {
      if pc < |cx.code| { assert Fits(cx, pc); assert cx'.code[pc] == cx.code[pc]; }
    }
  }

  lemma MoveGood(cx: Cx, i: Ins, d: nat)
    requires Consistent(cx) && (i.Push? || (i.Pop? && cx.cur > 0)) && d == cx.cur + Delta(i)
    ensures Consistent(Put(cx, i).(cur := d)) && Extends(cx, Put(cx, i).(cur := d))
  {
    var cx' := Put(cx, i).(cur := d);
    forall pc: nat | pc < |cx'.code| ensures Fits(cx', pc) {
      if pc < |cx.code| { assert Fits(cx, pc); assert cx'.code[pc] == cx.code[pc]; }
    }
  }

  lemma ExtendsTrans(a: Cx, b: Cx, c: Cx)
    requires Extends(a, b) && Extends(b, c)
    ensures Extends(a, c)
  {
  }

  lemma NestedKept(cx: Cx, cx': Cx, ls: seq<Entry>)
    requires Nested(cx, ls) && Extends(cx, cx') && cx'.cur == cx.cur && |cx'.labelDepth| == |cx'.labels|
    ensures Nested(cx', ls)
  {
    forall j | 0 <= j < |ls| ensures EntryOk(cx', ls, j) { assert EntryOk(cx, ls, j); }
  }

  // One more loop entry, whose labels have the depth outside its own environment.
  lemma NestedPushed(cx: Cx, cx': Cx, ls: seq<Entry>, e: Entry)
    requires Nested(cx, ls) && Extends(cx, cx') && |cx'.labelDepth| == |cx'.labels|
    requires cx'.cur == cx.cur + if e.perIter then 1 else 0
    requires e.lc.brk < |cx'.labels| && cx'.labelDepth[e.lc.brk] == cx.cur
    requires e.lc.cont.Some? ==> e.lc.cont.value < |cx'.labels| && cx'.labelDepth[e.lc.cont.value] == cx.cur
    ensures Nested(cx', ls + [e])
  {
    var all := ls + [e];
    forall j | 0 <= j < |all| ensures EntryOk(cx', all, j) {
      assert PerIters(ls[if j < |ls| then j else |ls|..] + [e]) == PerIters(ls[if j < |ls| then j else |ls|..])
        + if e.perIter then 1 else 0 by {
        assert (ls[if j < |ls| then j else |ls|..] + [e])[..|ls[if j < |ls| then j else |ls|..]|] ==
          ls[if j < |ls| then j else |ls|..];
      }
      if j < |ls| {
        assert EntryOk(cx, ls, j);
        assert all[j..] == ls[j..] + [e];
      } else {
        assert all[j..] == [] + [e] && ls[|ls|..] == [];
      }
    }
  }

  // ---- emission is consistent ---------------------------------------------

  lemma {:induction false} PopsGood(cx: Cx, n: nat)
    requires Consistent(cx) && n <= cx.cur
    ensures Consistent(Pops(cx, n)) && Extends(cx, Pops(cx, n)) && Pops(cx, n).cur == cx.cur - n
            && Pops(cx, n).failed == cx.failed
    ensures Pops(cx, n).labels == cx.labels && Pops(cx, n).labelDepth == cx.labelDepth
    decreases n
  {
    if n > 0 {
      MoveGood(cx, Pop, cx.cur - 1);
      PopsGood(PopEnv(cx), n - 1);
      ExtendsTrans(cx, PopEnv(cx), Pops(cx, n));
    }
  }

  // A jump out reaches its label at the label's depth, from any distance.
  lemma JumpOutGood(cx: Cx, ls: seq<Entry>, want: Option<Name>, isCont: bool)
    requires Consistent(cx) && Nested(cx, ls)
    ensures Good(cx, JumpOut(cx, ls, want, isCont))
  {
    var p := L.RPosition(Contexts(ls), want, isCont);
    if !(p.None? || (isCont && ls[p.value].lc.cont.None?)) {
      var target := if isCont then ls[p.value].lc.cont.value else ls[p.value].lc.brk;
      assert EntryOk(cx, ls, p.value);
      var n := PerIters(ls[p.value..]);
      PopsGood(cx, n);
      var cx1 := Pops(cx, n);
      var cx2 := Put(cx1, Goto(target)).(cur := cx.cur);
      forall pc: nat | pc < |cx2.code| ensures Fits(cx2, pc) {
        if pc < |cx1.code| { assert Fits(cx1, pc); assert cx2.code[pc] == cx1.code[pc]; }
      }
    }
  }

  // And it goes where the lowering's jump goes: to the continue point of the resolved
  // loop or behind the resolved statement.
  lemma JumpTarget(cx: Cx, ls: seq<Entry>, want: Option<Name>, isCont: bool, F: L.Ctx)
    requires !cx.failed && !F.failed && !JumpOut(cx, ls, want, isCont).failed
    ensures var (f, j) := (JumpOut(cx, ls, want, isCont), L.CompJumpOut(F, Contexts(ls), want, isCont));
            && f.code != [] && f.code[|f.code| - 1].Goto? && j.items != []
            && j.items[|j.items| - 1] == A.Branch(JUMP, 0, f.code[|f.code| - 1].l)
  {
    hide L.RPosition; hide L.EmitCloses; hide Pops;
  }

  // Failure is never forgotten.
  lemma {:induction false} Sticky(cx: Cx, ls: seq<Entry>, s: Stmt)
    ensures cx.failed ==> Emit(cx, ls, s).failed
    decreases s
  {
    match s
    case Plain =>
    case Seq(a, b) => Sticky(cx, ls, a); Sticky(Emit(cx, ls, a), ls, b);
    case If(a, b) =>
      var (cx1, elseL) := NewLabel(cx);
      var (cx2, endL) := NewLabel(cx1);
      var cx3 := Put(cx2, Branch(elseL));
      Sticky(cx3, ls, a);
      Sticky(Bind(Put(Emit(cx3, ls, a), Goto(endL)), elseL), ls, b);
    case Loop(perIter, name, body) =>
      var (cx1, top) := NewLabel(cx);
      var (cx2, cont) := NewLabel(cx1);
      var (cx3, end) := NewLabel(cx2);
      var cx4 := Put(Put(Bind(cx3, top), Step), Branch(end));
      Sticky(if perIter then PushEnv(cx4) else cx4, ls + [NewEntry(end, Some(cont), name, perIter)], body);
    case DoLoop(name, body) =>
      var (cx1, top) := NewLabel(cx);
      var (cx2, cont) := NewLabel(cx1);
      var (cx3, end) := NewLabel(cx2);
      Sticky(Put(Bind(cx3, top), Step), ls + [NewEntry(end, Some(cont), name, false)], body);
    case Labeled(lab, body) =>
      var (cx1, end) := NewLabel(cx);
      Sticky(cx1, ls + [NewEntry(end, None, Some(lab), false)], body);
    case Switch(name, bodies) =>
      var (cx1, end) := NewLabel(Put(cx, Step));
      var (cx2, deflt) := if Defaults(bodies) == 1 then NewLabel(cx1) else (cx1, end);
      TestsSticky(cx2, bodies);
      var (cx3, entries) := EmitTests(cx2, bodies);
      BodiesSticky(Put(cx3, Goto(deflt)), ls + [NewEntry(end, None, name, false)], bodies, entries, deflt);
    case Break(want) => JumpSticky(cx, ls, want, false);
    case Continue(want) => JumpSticky(cx, ls, want, true);
    case Return =>
  }

  lemma JumpSticky(cx: Cx, ls: seq<Entry>, want: Option<Name>, isCont: bool)
    ensures cx.failed ==> JumpOut(cx, ls, want, isCont).failed
  {
    var p := L.RPosition(Contexts(ls), want, isCont);
    if p.Some? { PopsSticky(cx, PerIters(ls[p.value..])); }
  }

  lemma {:induction false} PopsSticky(cx: Cx, n: nat)
    ensures cx.failed ==> Pops(cx, n).failed
    decreases n
  {
    if n > 0 { PopsSticky(PopEnv(cx), n - 1); }
  }

  lemma {:induction false} TestsSticky(cx: Cx, bs: Bodies)
    ensures cx.failed ==> EmitTests(cx, bs).0.failed
    decreases bs
  {
    if bs.Body? {
      if bs.isDefault { TestsSticky(cx, bs.tail); return; }
      var (cx1, l) := NewLabel(Put(cx, Step));
      TestsSticky(Put(cx1, Branch(l)), bs.tail);
    }
  }

  lemma {:induction false} BodiesSticky(cx: Cx, ls: seq<Entry>, bs: Bodies, entries: seq<nat>, deflt: nat)
    ensures cx.failed ==> EmitBodies(cx, ls, bs, entries, deflt).failed
    decreases bs
  {
    if bs.Body? && (bs.isDefault || entries != []) {
      var cx1 := Bind(cx, if bs.isDefault then deflt else entries[0]);
      Sticky(cx1, ls, bs.head);
      BodiesSticky(Emit(cx1, ls, bs.head), ls, bs.tail, if bs.isDefault then entries else entries[1..], deflt);
    }
  }

  lemma {:induction false} EmitGood(cx: Cx, ls: seq<Entry>, s: Stmt)
    requires Consistent(cx) && Nested(cx, ls)
    ensures Good(cx, Emit(cx, ls, s))
    decreases s, 1
  {
    match s
    case Plain => PutGood(cx, Step);
    case Seq(a, b) =>
      var cx1 := Emit(cx, ls, a);
      Sticky(cx1, ls, b);
      EmitGood(cx, ls, a);
      if !cx1.failed {
        NestedKept(cx, cx1, ls);
        EmitGood(cx1, ls, b);
        if !Emit(cx1, ls, b).failed { ExtendsTrans(cx, cx1, Emit(cx1, ls, b)); }
      }
    case If(_, _) => IfGood(cx, ls, s);
    case Loop(_, _, _) => LoopGood(cx, ls, s);
    case DoLoop(_, _) => DoLoopGood(cx, ls, s);
    case Labeled(_, _) => LabeledGood(cx, ls, s);
    case Switch(_, _) => SwitchGood(cx, ls, s);
    case Break(want) => JumpOutGood(cx, ls, want, false);
    case Continue(want) => JumpOutGood(cx, ls, want, true);
    case Return => PutGood(cx, Halt);
  }

  // ---- chains of emission steps -------------------------------------------

  // From cx0, emission got to cx without failing, d environments further in.
  ghost predicate Via(cx0: Cx, cx: Cx, d: int) { Extends(cx0, cx) && Consistent(cx) && cx.cur == cx0.cur + d }

  lemma ViaRefl(cx: Cx)
    requires Consistent(cx)
    ensures Via(cx, cx, 0)
  {
  }

  lemma ViaLabel(cx0: Cx, cx: Cx, d: int)
    requires Via(cx0, cx, d)
    ensures Via(cx0, NewLabel(cx).0, d) && Extends(cx, NewLabel(cx).0)
  {
    assert var (cx', l) := NewLabel(cx);
           && Consistent(cx') && Extends(cx, cx') && cx'.cur == cx.cur
           && l < |cx'.labels| && cx'.labelDepth[l] == cx.cur by {
      var cx' := NewLabel(cx).0;
      forall pc: nat | pc < |cx'.code| ensures Fits(cx', pc) { assert Fits(cx, pc); }
    }
    ExtendsTrans(cx0, cx, NewLabel(cx).0);
  }

  lemma ViaPut(cx0: Cx, cx: Cx, d: int, i: Ins)
    requires Via(cx0, cx, d) && Delta(i) == 0
             && (i.Goto? || i.Branch? ==> i.l < |cx.labels| && cx.labelDepth[i.l] == cx.cur)
    ensures Via(cx0, Put(cx, i), d) && Extends(cx, Put(cx, i))
  {
    PutGood(cx, i);
    ExtendsTrans(cx0, cx, Put(cx, i));
  }

  lemma ViaBind(cx0: Cx, cx: Cx, d: int, l: nat)
    requires Via(cx0, cx, d) && l < |cx.labels| && cx.labelDepth[l] == cx.cur && !Bind(cx, l).failed
    ensures Via(cx0, Bind(cx, l), d) && Extends(cx, Bind(cx, l))
  {
    assert Extends(cx, Bind(cx, l)) && Bind(cx, l).cur == cx.cur
      && (!Bind(cx, l).failed ==> Consistent(Bind(cx, l))) by {
      var cx' := Bind(cx, l);
      if cx.labels[l].None? {
        forall pc: nat | pc < |cx'.code| ensures Fits(cx', pc) { assert Fits(cx, pc); }
      }
    }
    ExtendsTrans(cx0, cx, Bind(cx, l));
  }

  lemma ViaGood(cx0: Cx, cx: Cx, d: int, cx': Cx)
    requires Via(cx0, cx, d) && Good(cx, cx') && !cx'.failed
    ensures Via(cx0, cx', d) && Extends(cx, cx')
  {
    ExtendsTrans(cx0, cx, cx');
  }

  lemma ViaNested(cx: Cx, cx': Cx, ls: seq<Entry>)
    requires Nested(cx, ls) && Via(cx, cx', 0)
    ensures Nested(cx', ls)
  {
    NestedKept(cx, cx', ls);
  }

  lemma {:induction false} IfGood(cx: Cx, ls: seq<Entry>, s: Stmt)
    requires s.If? && Consistent(cx) && Nested(cx, ls)
    ensures Good(cx, Emit(cx, ls, s))
    decreases s, 0
  {
    var (cx1, elseL) := NewLabel(cx);
    var (cx2, endL) := NewLabel(cx1);
    var cx3 := Put(cx2, Branch(elseL));
    var cx4 := Emit(cx3, ls, s.thn);
    var cx5 := Put(cx4, Goto(endL));
    var cx6 := Bind(cx5, elseL);
    var cx7 := Emit(cx6, ls, s.els);
    var cx8 := Bind(cx7, endL);
    Sticky(cx6, ls, s.els);
    if cx8.failed { return; }
    hide Consistent; hide Nested; hide Emit;
    ViaRefl(cx); ViaLabel(cx, cx, 0); ViaLabel(cx, cx1, 0); ViaPut(cx, cx2, 0, Branch(elseL));
    ViaNested(cx, cx3, ls);
    EmitGood(cx3, ls, s.thn);
    ViaGood(cx, cx3, 0, cx4);
    ViaPut(cx, cx4, 0, Goto(endL)); ViaBind(cx, cx5, 0, elseL);
    ViaNested(cx, cx6, ls);
    EmitGood(cx6, ls, s.els);
    ViaGood(cx, cx6, 0, cx7);
    ViaBind(cx, cx7, 0, endL);
  }

  lemma {:induction false} LoopGood(cx: Cx, ls: seq<Entry>, s: Stmt)
    requires s.Loop? && Consistent(cx) && Nested(cx, ls)
    ensures Good(cx, Emit(cx, ls, s))
    decreases s, 0
  {
    var (cx1, top) := NewLabel(cx);
    var (cx2, cont) := NewLabel(cx1);
    var (cx3, end) := NewLabel(cx2);
    var cx3' := Bind(cx3, top);
    var cx4 := Put(Put(cx3', Step), Branch(end));
    var cx5 := if s.perIter then PushEnv(cx4) else cx4;
    var e := NewEntry(end, Some(cont), s.name, s.perIter);
    var cx6 := Emit(cx5, ls + [e], s.body);
    var cx7 := if s.perIter then PopEnv(cx6) else cx6;
    var cx8 := Bind(cx7, cont);
    var cx9 := Put(Put(cx8, Step), Goto(top));
    var f := Bind(cx9, end);
    Sticky(cx5, ls + [e], s.body);
    if f.failed { return; }
    hide Consistent; hide Nested; hide Emit;
    var d := if s.perIter then 1 else 0;
    LoopHead(cx, ls, s);
    EmitGood(cx5, ls + [e], s.body);
    ViaGood(cx, cx5, d, cx6);
    LoopTail(cx, cx6, s.perIter, top, cont, end);
  }

  // A loop past its body.
  lemma LoopTail(cx: Cx, cx6: Cx, perIter: bool, top: nat, cont: nat, end: nat)
    requires Via(cx, cx6, if perIter then 1 else 0)
    requires top < |cx6.labels| && cx6.labelDepth[top] == cx.cur && cont < |cx6.labels|
             && cx6.labelDepth[cont] == cx.cur
    requires end < |cx6.labels| && cx6.labelDepth[end] == cx.cur
    ensures var cx7 := if perIter then PopEnv(cx6) else cx6;
            var f := Bind(Put(Put(Bind(cx7, cont), Step), Goto(top)), end);
            !f.failed ==> Via(cx, f, 0)
  {
    hide Consistent;
    var cx7 := if perIter then PopEnv(cx6) else cx6;
    var cx8 := Bind(cx7, cont);
    var cx9 := Put(Put(cx8, Step), Goto(top));
    if Bind(cx9, end).failed { return; }
    if perIter {
      assert Via(cx, PopEnv(cx6), 1 - 1) && Extends(cx6, PopEnv(cx6)) by {
        MoveGood(cx6, Pop, cx6.cur - 1);
        ExtendsTrans(cx, cx6, PopEnv(cx6));
      }
    }
    ViaBind(cx, cx7, 0, cont);
    ViaPut(cx, cx8, 0, Step); ViaPut(cx, Put(cx8, Step), 0, Goto(top));
    ViaBind(cx, cx9, 0, end);
  }

  // A loop up to its body: its labels have the outer depth, its body one more if it
  // owns an environment.
  lemma LoopHead(cx: Cx, ls: seq<Entry>, s: Stmt)
    requires s.Loop? && Consistent(cx) && Nested(cx, ls)
    ensures var (cx1, top) := NewLabel(cx);
            var (cx2, cont) := NewLabel(cx1);
            var (cx3, end) := NewLabel(cx2);
            var cx4 := Put(Put(Bind(cx3, top), Step), Branch(end));
            var cx5 := if s.perIter then PushEnv(cx4) else cx4;
            !cx5.failed ==>
              && Via(cx, cx5, if s.perIter then 1 else 0)
              && top < |cx5.labels| && cx5.labelDepth[top] == cx.cur && cont < |cx5.labels|
              && cx5.labelDepth[cont] == cx.cur
              && end < |cx5.labels| && cx5.labelDepth[end] == cx.cur
              && Nested(cx5, ls + [NewEntry(end, Some(cont), s.name, s.perIter)])
  {
    var (cx1, top) := NewLabel(cx);
    var (cx2, cont) := NewLabel(cx1);
    var (cx3, end) := NewLabel(cx2);
    var cx3' := Bind(cx3, top);
    var cx4 := Put(Put(cx3', Step), Branch(end));
    var cx5 := if s.perIter then PushEnv(cx4) else cx4;
    if cx5.failed { return; }
    hide Consistent; hide Nested;
    ViaRefl(cx); ViaLabel(cx, cx, 0); ViaLabel(cx, cx1, 0); ViaLabel(cx, cx2, 0); ViaBind(cx, cx3, 0, top);
    ViaPut(cx, cx3', 0, Step); ViaPut(cx, Put(cx3', Step), 0, Branch(end));
    if s.perIter {
      assert Via(cx, PushEnv(cx4), 0 + 1) && Extends(cx4, PushEnv(cx4)) by {
        MoveGood(cx4, Push, cx4.cur + 1);
        ExtendsTrans(cx, cx4, PushEnv(cx4));
      }
    }
    NestedPushed(cx, cx5, ls, NewEntry(end, Some(cont), s.name, s.perIter));
  }

  lemma {:induction false} DoLoopGood(cx: Cx, ls: seq<Entry>, s: Stmt)
    requires s.DoLoop? && Consistent(cx) && Nested(cx, ls)
    ensures Good(cx, Emit(cx, ls, s))
    decreases s, 0
  {
    var (cx1, top) := NewLabel(cx);
    var (cx2, cont) := NewLabel(cx1);
    var (cx3, end) := NewLabel(cx2);
    var cx3' := Bind(cx3, top);
    var cx4 := Put(cx3', Step);
    var e := NewEntry(end, Some(cont), s.name, false);
    var cx5 := Emit(cx4, ls + [e], s.body);
    var cx6 := Bind(cx5, cont);
    var cx7 := Put(cx6, Branch(top));
    var f := Bind(cx7, end);
    Sticky(cx4, ls + [e], s.body);
    if f.failed { return; }
    hide Consistent; hide Nested; hide Emit;
    ViaRefl(cx); ViaLabel(cx, cx, 0); ViaLabel(cx, cx1, 0); ViaLabel(cx, cx2, 0); ViaBind(cx, cx3, 0, top);
    ViaPut(cx, cx3', 0, Step);
    NestedPushed(cx, cx4, ls, e);
    EmitGood(cx4, ls + [e], s.body);
    ViaGood(cx, cx4, 0, cx5);
    ViaBind(cx, cx5, 0, cont);
    ViaPut(cx, cx6, 0, Branch(top));
    ViaBind(cx, cx7, 0, end);
  }

  lemma {:induction false} LabeledGood(cx: Cx, ls: seq<Entry>, s: Stmt)
    requires s.Labeled? && Consistent(cx) && Nested(cx, ls)
    ensures Good(cx, Emit(cx, ls, s))
    decreases s, 0
  {
    var (cx1, end) := NewLabel(cx);
    var e := NewEntry(end, None, Some(s.lab), false);
    var cx2 := Emit(cx1, ls + [e], s.body);
    var f := Bind(cx2, end);
    Sticky(cx1, ls + [e], s.body);
    if f.failed { return; }
    hide Consistent; hide Nested; hide Emit;
    ViaRefl(cx); ViaLabel(cx, cx, 0);
    NestedPushed(cx, cx1, ls, e);
    EmitGood(cx1, ls + [e], s.body);
    ViaGood(cx, cx1, 0, cx2);
    ViaBind(cx, cx2, 0, end);
  }

  lemma {:induction false} SwitchGood(cx: Cx, ls: seq<Entry>, s: Stmt)
    requires s.Switch? && Consistent(cx) && Nested(cx, ls)
    ensures Good(cx, Emit(cx, ls, s))
    decreases s, 0
  {
    var cx0 := Put(cx, Step);
    var (cx1, end) := NewLabel(cx0);
    var one := Defaults(s.bodies) == 1;
    var (cx2, deflt) := if one then NewLabel(cx1) else (cx1, end);
    var (cx3, entries) := EmitTests(cx2, s.bodies);
    var cx4 := Put(cx3, Goto(deflt));
    var e := NewEntry(end, None, s.name, false);
    var cx5 := EmitBodies(cx4, ls + [e], s.bodies, entries, deflt);
    TestsSticky(cx2, s.bodies);
    BodiesSticky(cx4, ls + [e], s.bodies, entries, deflt);
    if Defaults(s.bodies) > 1 || Bind(cx5, end).failed { return; }
    hide Consistent; hide Nested; hide Emit; hide EmitTests; hide EmitBodies; hide Defaults;
    ViaRefl(cx); ViaPut(cx, cx, 0, Step); ViaLabel(cx, cx0, 0);
    if one { ViaLabel(cx, cx1, 0); }
    TestsGood(cx2, s.bodies);
    ViaGood(cx, cx2, 0, cx3);
    ViaPut(cx, cx3, 0, Goto(deflt));
    NestedPushed(cx, cx4, ls, e);
    BodiesGood(cx4, ls + [e], s.bodies, entries, deflt);
    ViaGood(cx, cx4, 0, cx5);
    ViaBind(cx, cx5, 0, end);
    assert Emit(cx, ls, s) == Bind(cx5, end);
  }

  lemma {:induction false} TestsGood(cx: Cx, bs: Bodies)
    requires Consistent(cx)
    ensures var (f, entries) := EmitTests(cx, bs);
            Good(cx, f)
            && (!f.failed ==>
                forall k :: 0 <= k < |entries| ==> entries[k] < |f.labels| && f.labelDepth[entries[k]] == cx.cur)
    decreases bs
  {
    if bs.NoBody? {
      ViaRefl(cx);
    } else if bs.isDefault {
      TestsGood(cx, bs.tail);
    } else {
      var cx0 := Put(cx, Step);
      var (cx1, l) := NewLabel(cx0);
      var cx2 := Put(cx1, Branch(l));
      var (f, more) := EmitTests(cx2, bs.tail);
      TestsSticky(cx2, bs.tail);
      if f.failed { return; }
      hide Consistent; hide EmitTests;
      ViaRefl(cx); ViaPut(cx, cx, 0, Step); ViaLabel(cx, cx0, 0); ViaPut(cx, cx1, 0, Branch(l));
      TestsGood(cx2, bs.tail);
      ViaGood(cx, cx2, 0, f);
    }
  }

  lemma {:induction false} BodiesGood(cx: Cx, ls: seq<Entry>, bs: Bodies, entries: seq<nat>, deflt: nat)
    requires Consistent(cx) && Nested(cx, ls) && deflt < |cx.labels| && cx.labelDepth[deflt] == cx.cur
    requires forall k :: 0 <= k < |entries| ==> entries[k] < |cx.labels| && cx.labelDepth[entries[k]] == cx.cur
    ensures Good(cx, EmitBodies(cx, ls, bs, entries, deflt))
    decreases bs, 0
  {
    ViaRefl(cx);
    if bs.Body? && (bs.isDefault || entries != []) {
      var (l, rest) := if bs.isDefault then (deflt, entries) else (entries[0], entries[1..]);
      var cx1 := Bind(cx, l);
      var cx2 := Emit(cx1, ls, bs.head);
      var f := EmitBodies(cx2, ls, bs.tail, rest, deflt);
      Sticky(cx1, ls, bs.head);
      BodiesSticky(cx2, ls, bs.tail, rest, deflt);
      if f.failed { return; }
      hide Consistent; hide Nested; hide Emit; hide EmitBodies;
      ViaBind(cx, cx, 0, l);
      ViaNested(cx, cx1, ls);
      EmitGood(cx1, ls, bs.head);
      ViaGood(cx, cx1, 0, cx2);
      ViaNested(cx, cx2, ls);
      BodiesGood(cx2, ls, bs.tail, rest, deflt);
      ViaGood(cx, cx2, 0, f);
    }
  }

  // ---- what is emitted ------------------------------------------------------

  // A plain instruction, and the pushing of an environment, with the environments around.
  datatype Mark = Ran(depth: nat) | Opened(depth: nat)

  function MarkOf(i: Ins, d: nat): seq<Mark> { if i.Step? then [Ran(d)] else if i.Push? then [Opened(d)] else [] }

  function Marks(code: seq<Ins>, depths: seq<nat>): seq<Mark>
    requires |depths| == |code|
  {
    if code == [] then []
    else Marks(code[..|code| - 1], depths[..|code| - 1]) + MarkOf(code[|code| - 1], depths[|code| - 1])
  }

  // What a program asks for inside n loops with per-iteration environments.
  function Listed(s: Stmt, n: nat): seq<Mark>
    decreases s
  {
    match s
    case Plain => [Ran(n)]
    case Seq(a, b) => Listed(a, n) + Listed(b, n)
    case If(a, b) => Listed(a, n) + Listed(b, n)
    case Loop(perIter, _, body) =>
      [Ran(n)] + (if perIter then [Opened(n)] + Listed(body, n + 1) else Listed(body, n)) + [Ran(n)]
    case DoLoop(_, body) => [Ran(n)] + Listed(body, n)
    case Labeled(_, body) => Listed(body, n)
    case Switch(_, bodies) => [Ran(n)] + ListedTests(bodies, n) + ListedIn(bodies, n)
    case _ => []
  }

  function ListedTests(bs: Bodies, n: nat): seq<Mark> {
    if bs.NoBody? then []
    else if bs.isDefault then ListedTests(bs.tail, n) else [Ran(n)] + ListedTests(bs.tail, n)
  }

  function ListedIn(bs: Bodies, n: nat): seq<Mark>
    decreases bs
  {
    if bs.NoBody? then [] else Listed(bs.head, n) + ListedIn(bs.tail, n)
  }

  // Every jump has a target and no switch two defaults.
  predicate Legal(s: Stmt, es: seq<D.Entry>)
    decreases s
  {
    match s
    case Seq(a, b) => Legal(a, es) && Legal(b, es)
    case If(a, b) => Legal(a, es) && Legal(b, es)
    case Loop(_, name, body) => Legal(body, es + [D.Entry(name, true, false)])
    case DoLoop(name, body) => Legal(body, es + [D.Entry(name, true, false)])
    case Labeled(lab, body) => Legal(body, es + [D.Entry(Some(lab), false, false)])
    case Switch(name, bodies) => Defaults(bodies) <= 1 && LegalIn(bodies, es + [D.Entry(name, false, false)])
    case Break(want) => D.Closed(es, want, false).Some?
    case Continue(want) => D.Closed(es, want, true).Some?
    case _ => true
  }

  predicate LegalIn(bs: Bodies, es: seq<D.Entry>)
    decreases bs
  {
    bs.Body? ==> Legal(bs.head, es) && LegalIn(bs.tail, es)
  }

  // From cx emission gets to f, d environments further in: it fails unless ok, adds the
  // marks ms, and touches no earlier label.
  ghost predicate Yields(cx: Cx, f: Cx, d: int, ok: bool, ms: seq<Mark>) {
    && |cx.depths| == |cx.code| && |f.depths| == |f.code| && f.cur == cx.cur + d && |cx.labels| <= |f.labels|
    && (forall l :: 0 <= l < |cx.labels| ==> f.labels[l] == cx.labels[l])
    && (f.failed <==> cx.failed || !ok)
    && (!f.failed ==> Marks(f.code, f.depths) == Marks(cx.code, cx.depths) + ms)
  }

  lemma PutMarks(cx: Cx, i: Ins)
    requires |cx.depths| == |cx.code|
    ensures var f := Put(cx, i); Marks(f.code, f.depths) == Marks(cx.code, cx.depths) + MarkOf(i, cx.cur)
  {
    var f := Put(cx, i);
    assert f.code[..|cx.code|] == cx.code && f.depths[..|cx.code|] == cx.depths;
  }

  lemma YieldsNone(cx: Cx)
    requires |cx.depths| == |cx.code|
    ensures Yields(cx, cx, 0, true, [])
  {
    hide Marks;
  }

  lemma YieldsPut(cx: Cx, f: Cx, d: int, ok: bool, ms: seq<Mark>, i: Ins)
    requires Yields(cx, f, d, ok, ms)
    ensures Yields(cx, Put(f, i), d, ok, ms + MarkOf(i, f.cur)) && Put(f, i).labels == f.labels
    ensures !i.Step? && !i.Push? ==> Yields(cx, Put(f, i), d, ok, ms)
    ensures i.Step? && ms == [] ==> Yields(cx, Put(f, i), d, ok, [Ran(f.cur)])
  {
    hide Marks;
    assert [] + [Ran(f.cur)] == [Ran(f.cur)];
    PutMarks(f, i);
    assert Marks(cx.code, cx.depths) + ms + MarkOf(i, f.cur) == Marks(cx.code, cx.depths) + (ms + MarkOf(i, f.cur));
  }

  // The push and the pop of a loop's environment, if it has one.
  lemma YieldsMove(cx: Cx, f: Cx, d: int, ok: bool, ms: seq<Mark>)
    requires Yields(cx, f, d, ok, ms)
    ensures Yields(cx, PushEnv(f), d + 1, ok, ms + [Opened(f.cur)]) && PushEnv(f).labels == f.labels
    ensures f.cur > 0 ==> Yields(cx, PopEnv(f), d - 1, ok, ms) && PopEnv(f).labels == f.labels
  {
    hide Marks;
    YieldsPut(cx, f, d, ok, ms, Push);
    YieldsPut(cx, f, d, ok, ms, Pop);
  }

  lemma YieldsLabel(cx: Cx, f: Cx, d: int, ok: bool, ms: seq<Mark>)
    requires Yields(cx, f, d, ok, ms)
    ensures var (g, l) := NewLabel(f); Yields(cx, g, d, ok, ms) && l >= |cx.labels| && g.labels == f.labels + [None]
  {
    hide Marks;
  }

  predicate Free(cx: Cx, l: nat) { l < |cx.labels| && cx.labels[l].None? }

  lemma YieldsBind(cx: Cx, f: Cx, d: int, ok: bool, ms: seq<Mark>, l: nat)
    requires Yields(cx, f, d, ok, ms) && Free(f, l) && l >= |cx.labels|
    ensures Yields(cx, Bind(f, l), d, ok, ms) && Bind(f, l).cur == f.cur
    ensures forall m :: Free(f, m) && m != l ==> Free(Bind(f, l), m)
  {
    hide Marks;
  }

  lemma YieldsThen(cx: Cx, f: Cx, d: int, ok: bool, ms: seq<Mark>, g: Cx, ok': bool, ms': seq<Mark>)
    requires Yields(cx, f, d, ok, ms) && Yields(f, g, 0, ok', ms')
    ensures Yields(cx, g, d, ok && ok', ms + ms')
    ensures forall m :: Free(f, m) ==> Free(g, m)
  {
    hide Marks;
    assert Marks(cx.code, cx.depths) + ms + ms' == Marks(cx.code, cx.depths) + (ms + ms');
  }

  lemma {:induction false} PopsMarks(cx: Cx, n: nat)
    requires |cx.depths| == |cx.code| && n <= cx.cur
    ensures var f := Pops(cx, n);
            && |f.depths| == |f.code| && f.labels == cx.labels && f.failed == cx.failed
            && Marks(f.code, f.depths) == Marks(cx.code, cx.depths)
    decreases n
  {
    hide Marks;
    if n > 0 {
      PutMarks(cx, Pop);
      PopsMarks(PopEnv(cx), n - 1);
    }
  }

  lemma {:induction false} FewerPerIters(ls: seq<Entry>, p: nat)
    requires p <= |ls|
    ensures PerIters(ls[p..]) <= PerIters(ls)
    decreases |ls|
  {
    if p < |ls| {
      var k := |ls| - 1;
      FewerPerIters(ls[..k], p);
      assert ls[p..][..k - p] == ls[..k][p..];
    }
  }

  ghost predicate Stack(cx: Cx, ls: seq<Entry>, es: seq<D.Entry>) {
    |cx.depths| == |cx.code| && PerIters(ls) <= cx.cur && D.Shows(Contexts(ls), es)
  }

  lemma JumpYields(cx: Cx, ls: seq<Entry>, es: seq<D.Entry>, want: Option<Name>, isCont: bool)
    requires Stack(cx, ls, es)
    ensures Yields(cx, JumpOut(cx, ls, want, isCont), 0, D.Closed(es, want, isCont).Some?, [])
  {
    hide L.RPosition; hide D.Closed; hide Pops; hide Marks; hide PerIters; hide D.Shows; hide D.Iterators;
    D.ClosedLeft(Contexts(ls), es, want, isCont);
    var p := L.RPosition(Contexts(ls), want, isCont);
    if !(p.None? || (isCont && ls[p.value].lc.cont.None?)) {
      FewerPerIters(ls, p.value);
      PopsMarks(cx, PerIters(ls[p.value..]));
      var lc := ls[p.value].lc;
      PutMarks(Pops(cx, PerIters(ls[p.value..])), Goto(if isCont then lc.cont.value else lc.brk));
    }
  }

  lemma StackKept(cx: Cx, cx': Cx, ls: seq<Entry>, es: seq<D.Entry>, ok: bool, ms: seq<Mark>)
    requires Stack(cx, ls, es) && Yields(cx, cx', 0, ok, ms)
    ensures Stack(cx', ls, es)
  {
    hide Marks;
  }

  lemma StackPushed(cx: Cx, cx': Cx, ls: seq<Entry>, es: seq<D.Entry>, e: Entry, ok: bool, ms: seq<Mark>)
    requires Stack(cx, ls, es) && Yields(cx, cx', if e.perIter then 1 else 0, ok, ms) && e.lc.iter.None?
    ensures Stack(cx', ls + [e], es + [D.Entry(e.lc.name, e.lc.cont.Some?, false)])
  {
    hide Marks;
    assert (ls + [e])[..|ls|] == ls;
  }

  lemma {:induction false} EmitYields(cx: Cx, ls: seq<Entry>, es: seq<D.Entry>, s: Stmt)
    requires Stack(cx, ls, es)
    ensures Yields(cx, Emit(cx, ls, s), 0, Legal(s, es), Listed(s, cx.cur)) && Emit(cx, ls, s).cur == cx.cur
    decreases s, 1
  {
    hide Marks; hide Stack; hide Yields; hide JumpOut; hide D.Closed;
    StackLength(cx, ls, es);
    YieldsNone(cx);
    match s
    case Plain => YieldsPut(cx, cx, 0, true, [], Step); YieldsDepth(cx, Put(cx, Step), 0, true, [Ran(cx.cur)]);
    case Seq(a, b) =>
      EmitYields(cx, ls, es, a);
      var f := Emit(cx, ls, a);
      StackKept(cx, f, ls, es, Legal(a, es), Listed(a, cx.cur));
      EmitYields(f, ls, es, b);
      YieldsThen(cx, f, 0, Legal(a, es), Listed(a, cx.cur), Emit(f, ls, b), Legal(b, es), Listed(b, cx.cur));
    case If(_, _) => IfYields(cx, ls, es, s);
    case Loop(_, _, _) => LoopYields(cx, ls, es, s);
    case DoLoop(_, _) => DoLoopYields(cx, ls, es, s);
    case Labeled(_, _) => LabeledYields(cx, ls, es, s);
    case Switch(_, _) => SwitchYields(cx, ls, es, s);
    case Break(want) =>
      JumpYields(cx, ls, es, want, false);
      YieldsDepth(cx, JumpOut(cx, ls, want, false), 0, Legal(s, es), []);
    case Continue(want) =>
      JumpYields(cx, ls, es, want, true);
      YieldsDepth(cx, JumpOut(cx, ls, want, true), 0, Legal(s, es), []);
    case Return => YieldsPut(cx, cx, 0, true, [], Halt); YieldsDepth(cx, Put(cx, Halt), 0, true, []);
  }

  lemma StackLength(cx: Cx, ls: seq<Entry>, es: seq<D.Entry>)
    requires Stack(cx, ls, es)
    ensures |cx.depths| == |cx.code|
  {
  }

  lemma YieldsDepth(cx: Cx, f: Cx, d: int, ok: bool, ms: seq<Mark>)
    requires Yields(cx, f, d, ok, ms)
    ensures f.cur == cx.cur + d
  {
    hide Marks;
  }

  lemma {:induction false} IfYields(cx: Cx, ls: seq<Entry>, es: seq<D.Entry>, s: Stmt)
    requires s.If? && Stack(cx, ls, es)
    ensures Yields(cx, Emit(cx, ls, s), 0, Legal(s, es), Listed(s, cx.cur)) && Emit(cx, ls, s).cur == cx.cur
    decreases s, 0
  {
    hide Marks; hide Stack; hide Yields;
    StackLength(cx, ls, es);
    YieldsNone(cx);
    var (cx1, elseL) := NewLabel(cx);
    YieldsLabel(cx, cx, 0, true, []);
    var (cx2, endL) := NewLabel(cx1);
    YieldsLabel(cx, cx1, 0, true, []);
    var cx3 := Put(cx2, Branch(elseL));
    YieldsPut(cx, cx2, 0, true, [], Branch(elseL));
    StackKept(cx, cx3, ls, es, true, []);
    EmitYields(cx3, ls, es, s.thn);
    var cx4 := Emit(cx3, ls, s.thn);
    var (ok, ms) := (Legal(s.thn, es), Listed(s.thn, cx.cur));
    YieldsThen(cx, cx3, 0, true, [], cx4, ok, ms);
    assert [] + ms == ms && Free(cx3, elseL) && Free(cx3, endL);
    var cx5 := Put(cx4, Goto(endL));
    YieldsPut(cx, cx4, 0, ok, ms, Goto(endL));
    assert Free(cx5, elseL) && Free(cx5, endL);
    var cx6 := Bind(cx5, elseL);
    YieldsBind(cx, cx5, 0, ok, ms, elseL);
    StackKept(cx, cx6, ls, es, ok, ms);
    EmitYields(cx6, ls, es, s.els);
    var cx7 := Emit(cx6, ls, s.els);
    YieldsThen(cx, cx6, 0, ok, ms, cx7, Legal(s.els, es), Listed(s.els, cx.cur));
    YieldsBind(cx, cx7, 0, Legal(s, es), Listed(s, cx.cur), endL);
  }

  lemma {:induction false} LabeledYields(cx: Cx, ls: seq<Entry>, es: seq<D.Entry>, s: Stmt)
    requires s.Labeled? && Stack(cx, ls, es)
    ensures Yields(cx, Emit(cx, ls, s), 0, Legal(s, es), Listed(s, cx.cur)) && Emit(cx, ls, s).cur == cx.cur
    decreases s, 0
  {
    hide Marks; hide Stack; hide Yields;
    StackLength(cx, ls, es);
    YieldsNone(cx);
    var (cx1, end) := NewLabel(cx);
    YieldsLabel(cx, cx, 0, true, []);
    var e := NewEntry(end, None, Some(s.lab), false);
    StackPushed(cx, cx1, ls, es, e, true, []);
    EmitYields(cx1, ls + [e], es + [D.Entry(Some(s.lab), false, false)], s.body);
    var cx2 := Emit(cx1, ls + [e], s.body);
    var (ok, ms) := (Legal(s, es), Listed(s, cx.cur));
    YieldsThen(cx, cx1, 0, true, [], cx2, ok, ms);
    assert [] + ms == ms && Free(cx1, end);
    YieldsBind(cx, cx2, 0, ok, ms, end);
  }

  lemma {:induction false} LoopYields(cx: Cx, ls: seq<Entry>, es: seq<D.Entry>, s: Stmt)
    requires s.Loop? && Stack(cx, ls, es)
    ensures Yields(cx, Emit(cx, ls, s), 0, Legal(s, es), Listed(s, cx.cur)) && Emit(cx, ls, s).cur == cx.cur
    decreases s, 0
  {
    hide Marks; hide Stack; hide Yields; hide PushEnv; hide PopEnv;
    StackLength(cx, ls, es);
    var cx3, top, cont, end := Labels3(cx);
    var n := cx.cur;
    var cx3' := Bind(cx3, top);
    YieldsBind(cx, cx3, 0, true, [], top);
    YieldsPut(cx, cx3', 0, true, [], Step);
    var cx4 := Put(Put(cx3', Step), Branch(end));
    YieldsPut(cx, Put(cx3', Step), 0, true, [Ran(n)], Branch(end));
    var cx5 := if s.perIter then PushEnv(cx4) else cx4;
    YieldsMove(cx, cx4, 0, true, [Ran(n)]);
    var d := if s.perIter then 1 else 0;
    var ms := if s.perIter then [Ran(n)] + [Opened(n)] else [Ran(n)];
    YieldsDepth(cx, cx5, d, true, ms);
    assert Free(cx3', cont) && Free(cx3', end);
    var e := NewEntry(end, Some(cont), s.name, s.perIter);
    StackPushed(cx, cx5, ls, es, e, true, ms);
    EmitYields(cx5, ls + [e], es + [D.Entry(s.name, true, false)], s.body);
    var cx6 := Emit(cx5, ls + [e], s.body);
    var (ok, ms6) := (Legal(s, es), ms + Listed(s.body, n + d));
    YieldsThen(cx, cx5, d, true, ms, cx6, ok, Listed(s.body, n + d));
    assert Free(cx5, cont) && Free(cx5, end);
    var cx7 := if s.perIter then PopEnv(cx6) else cx6;
    YieldsMove(cx, cx6, d, ok, ms6);
    assert Free(cx6, cont) && Free(cx6, end) && Free(cx7, cont) && Free(cx7, end);
    var cx8 := Bind(cx7, cont);
    YieldsBind(cx, cx7, 0, ok, ms6, cont);
    YieldsDepth(cx, cx8, 0, ok, ms6);
    YieldsPut(cx, cx8, 0, ok, ms6, Step);
    YieldsPut(cx, Put(cx8, Step), 0, ok, ms6 + [Ran(n)], Goto(top));
    var cx9 := Put(Put(cx8, Step), Goto(top));
    assert ms6 + [Ran(n)] == Listed(s, n);
    assert Free(cx8, end) && Free(cx9, end);
    YieldsBind(cx, cx9, 0, ok, Listed(s, n), end);
  }

  // The three labels of a loop.
  lemma Labels3(cx: Cx) returns (f: Cx, top: nat, cont: nat, end: nat)
    requires |cx.depths| == |cx.code|
    ensures f == NewLabel(NewLabel(NewLabel(cx).0).0).0
    ensures top == NewLabel(cx).1 && cont == NewLabel(NewLabel(cx).0).1
    ensures end == NewLabel(NewLabel(NewLabel(cx).0).0).1
    ensures Yields(cx, f, 0, true, []) && Free(f, top) && Free(f, cont) && Free(f, end)
    ensures |cx.labels| <= top < cont < end && f.cur == cx.cur
  {
    hide Marks; hide Yields;
    YieldsNone(cx);
    YieldsLabel(cx, cx, 0, true, []);
    YieldsLabel(cx, NewLabel(cx).0, 0, true, []);
    YieldsLabel(cx, NewLabel(NewLabel(cx).0).0, 0, true, []);
    f, top, cont, end := NewLabel(NewLabel(NewLabel(cx).0).0).0, |cx.labels|, |cx.labels| + 1, |cx.labels| + 2;
  }

  lemma {:induction false} DoLoopYields(cx: Cx, ls: seq<Entry>, es: seq<D.Entry>, s: Stmt)
    requires s.DoLoop? && Stack(cx, ls, es)
    ensures Yields(cx, Emit(cx, ls, s), 0, Legal(s, es), Listed(s, cx.cur)) && Emit(cx, ls, s).cur == cx.cur
    decreases s, 0
  {
    hide Marks; hide Stack; hide Yields;
    StackLength(cx, ls, es);
    var cx3, top, cont, end := Labels3(cx);
    var n := cx.cur;
    var cx3' := Bind(cx3, top);
    YieldsBind(cx, cx3, 0, true, [], top);
    YieldsPut(cx, cx3', 0, true, [], Step);
    var cx4 := Put(cx3', Step);
    assert Free(cx3', cont) && Free(cx3', end) && Free(cx4, cont) && Free(cx4, end);
    var e := NewEntry(end, Some(cont), s.name, false);
    StackPushed(cx, cx4, ls, es, e, true, [Ran(n)]);
    EmitYields(cx4, ls + [e], es + [D.Entry(s.name, true, false)], s.body);
    var cx5 := Emit(cx4, ls + [e], s.body);
    var (ok, ms) := (Legal(s, es), Listed(s, n));
    YieldsThen(cx, cx4, 0, true, [Ran(n)], cx5, ok, Listed(s.body, n));
    var cx6 := Bind(cx5, cont);
    YieldsBind(cx, cx5, 0, ok, ms, cont);
    YieldsPut(cx, cx6, 0, ok, ms, Branch(top));
    assert Free(cx6, end) && Free(Put(cx6, Branch(top)), end);
    YieldsBind(cx, Put(cx6, Branch(top)), 0, ok, ms, end);
  }

  function Tests(bs: Bodies): nat { if bs.NoBody? then 0 else (if bs.isDefault then 0 else 1) + Tests(bs.tail) }

  // Labels still to be bound, each once, none below lo.
  ghost predicate AllFree(cx: Cx, ls: seq<nat>, lo: nat) {
    && (forall i :: 0 <= i < |ls| ==> lo <= ls[i] && Free(cx, ls[i]))
    && (forall i, j :: 0 <= i < j < |ls| ==> ls[i] != ls[j])
  }

  lemma {:induction false} TestsYield(cx: Cx, bs: Bodies)
    requires |cx.depths| == |cx.code|
    ensures var (f, entries) := EmitTests(cx, bs);
            && Yields(cx, f, 0, true, ListedTests(bs, cx.cur)) && f.cur == cx.cur
            && |entries| == Tests(bs) && AllFree(f, entries, |cx.labels|)
    decreases bs
  {
    hide Marks; hide Yields;
    YieldsNone(cx);
    if bs.Body? {
      if bs.isDefault {
        TestsYield(cx, bs.tail);
      } else {
        YieldsPut(cx, cx, 0, true, [], Step);
        YieldsLabel(cx, Put(cx, Step), 0, true, [Ran(cx.cur)]);
        var (cx1, l) := NewLabel(Put(cx, Step));
        YieldsPut(cx, cx1, 0, true, [Ran(cx.cur)], Branch(l));
        var cx2 := Put(cx1, Branch(l));
        TestsYield(cx2, bs.tail);
        var (f, more) := EmitTests(cx2, bs.tail);
        assert Free(cx2, l);
        YieldsThen(cx, cx2, 0, true, [Ran(cx.cur)], f, true, ListedTests(bs.tail, cx.cur));
      }
    }
  }

  // `keep` is a label the bodies leave alone; lo bounds the labels of the whole switch.
  lemma {:induction false} BodiesYield(cx0: Cx, d: int, ok: bool, ms: seq<Mark>, cx: Cx, ls: seq<Entry>,
                                       es: seq<D.Entry>, bs: Bodies, entries: seq<nat>, deflt: nat, keep: nat)
    requires Stack(cx, ls, es) && Yields(cx0, cx, d, ok, ms) && Defaults(bs) <= 1 && |entries| == Tests(bs)
    requires AllFree(cx, entries, |cx0.labels|) && Free(cx, keep) && keep !in entries
    requires Defaults(bs) == 1 ==> Free(cx, deflt) && deflt >= |cx0.labels| && deflt !in entries && deflt != keep
    ensures var f := EmitBodies(cx, ls, bs, entries, deflt);
            Yields(cx0, f, d, ok && LegalIn(bs, es), ms + ListedIn(bs, cx.cur)) && Free(f, keep) && f.cur == cx.cur
    decreases bs, 0
  {
    hide Marks; hide Stack; hide Yields; hide Emit; hide Legal; hide Listed;
    if bs.NoBody? {
      assert ms + [] == ms;
    } else {
      var (l, rest) := if bs.isDefault then (deflt, entries) else (entries[0], entries[1..]);
      var cx1 := Bind(cx, l);
      YieldsBind(cx0, cx, d, ok, ms, l);
      StackBound(cx, ls, es, l);
      EmitYields(cx1, ls, es, bs.head);
      var cx2 := Emit(cx1, ls, bs.head);
      var (ok1, ms1) := (Legal(bs.head, es), Listed(bs.head, cx.cur));
      YieldsThen(cx0, cx1, d, ok, ms, cx2, ok1, ms1);
      StackKept(cx1, cx2, ls, es, ok1, ms1);
      BodiesYield(cx0, d, ok && ok1, ms + ms1, cx2, ls, es, bs.tail, rest, deflt, keep);
      assert ms + ms1 + ListedIn(bs.tail, cx.cur) == ms + ListedIn(bs, cx.cur);
    }
  }

  lemma StackBound(cx: Cx, ls: seq<Entry>, es: seq<D.Entry>, l: nat)
    requires Stack(cx, ls, es) && Free(cx, l)
    ensures Stack(Bind(cx, l), ls, es) && Bind(cx, l).cur == cx.cur
  {
  }

  lemma {:induction false} SwitchYields(cx: Cx, ls: seq<Entry>, es: seq<D.Entry>, s: Stmt)
    requires s.Switch? && Stack(cx, ls, es)
    ensures Yields(cx, Emit(cx, ls, s), 0, Legal(s, es), Listed(s, cx.cur)) && Emit(cx, ls, s).cur == cx.cur
    decreases s, 0
  {
    hide Marks; hide Stack; hide EmitTests; hide EmitBodies; hide LegalIn; hide ListedIn; hide ListedTests;
    StackLength(cx, ls, es);
    var n := cx.cur;
    var cx0 := Put(cx, Step);
    YieldsNone(cx);
    YieldsPut(cx, cx, 0, true, [], Step);
    var (cx1, end) := NewLabel(cx0);
    if Defaults(s.bodies) > 1 { return; }
    hide Yields;
    YieldsLabel(cx, cx0, 0, true, [Ran(n)]);
    var one := Defaults(s.bodies) == 1;
    var (cx2, deflt) := if one then NewLabel(cx1) else (cx1, end);
    if one { YieldsLabel(cx, cx1, 0, true, [Ran(n)]); }
    TestsYield(cx2, s.bodies);
    var (cx3, entries) := EmitTests(cx2, s.bodies);
    var ms := [Ran(n)] + ListedTests(s.bodies, n);
    assert Free(cx2, end) && Free(cx2, deflt);
    YieldsThen(cx, cx2, 0, true, [Ran(n)], cx3, true, ListedTests(s.bodies, n));
    var cx4 := Put(cx3, Goto(deflt));
    YieldsPut(cx, cx3, 0, true, ms, Goto(deflt));
    assert Free(cx4, end) && Free(cx4, deflt) && forall m :: Free(cx3, m) ==> Free(cx4, m);
    var e := NewEntry(end, None, s.name, false);
    StackPushed(cx, cx4, ls, es, e, true, ms);
    BodiesYield(cx, 0, true, ms, cx4, ls + [e], es + [D.Entry(s.name, false, false)], s.bodies, entries, deflt, end);
    var cx5 := EmitBodies(cx4, ls + [e], s.bodies, entries, deflt);
    YieldsBind(cx, cx5, 0, Legal(s, es), Listed(s, n), end);
  }

  // Emission succeeds exactly on legal statements, and puts every instruction inside
  // exactly the environments of the loops around it.
  lemma EmitExact(s: Stmt)
    ensures var f := Emit(Cx([], [], [], [], 0, false), [], s);
            && (!f.failed <==> Legal(s, []))
            && |f.depths| == |f.code| && (!f.failed ==> Marks(f.code, f.depths) == Listed(s, 0))
  {
    hide Emit; hide Legal; hide Listed;
    EmitYields(Cx([], [], [], [], 0, false), [], [], s);
  }

  // ---- runs -----------------------------------------------------------------

  // A frame: where it is, and how many environments it has pushed.
  datatype Frame = Frame(pc: nat, envs: nat)

  // One step of a frame; a pop needs something to pop.
  ghost predicate Steps(cx: Cx, s: Frame, t: Frame) {
    && s.pc < |cx.code|
    && match cx.code[s.pc]
       case Step => t == Frame(s.pc + 1, s.envs)
       case Push => t == Frame(s.pc + 1, s.envs + 1)
       case Pop => s.envs > 0 && t == Frame(s.pc + 1, s.envs - 1)
       case Goto(l) => l < |cx.labels| && cx.labels[l].Some? && t == Frame(cx.labels[l].value, s.envs)
       case Branch(l) =>
         || t == Frame(s.pc + 1, s.envs)
         || (l < |cx.labels| && cx.labels[l].Some? && t == Frame(cx.labels[l].value, s.envs))
       case Halt => false
  }

  ghost predicate IsRun(cx: Cx, run: seq<Frame>) {
    run != [] && run[0] == Frame(0, 0) && forall i :: 0 <= i < |run| - 1 ==> Steps(cx, run[i], run[i + 1])
  }

  // Environment balance: after any number of steps the frame is at a place in the
  // code and has pushed exactly the environments that place has statically; a pop
  // always finds one; and falling off the end leaves none behind.
  lemma {:induction false} Balanced(s: Stmt, run: seq<Frame>, i: nat)
    requires var cx := Emit(Cx([], [], [], [], 0, false), [], s);
             !cx.failed && IsRun(cx, run) && i < |run|
    ensures var cx := Emit(Cx([], [], [], [], 0, false), [], s);
            && |cx.depths| == |cx.code| && run[i].pc <= |cx.code|
            && run[i].envs == DepthAt(cx, run[i].pc)
            && (run[i].pc < |cx.code| && cx.code[run[i].pc].Pop? ==> run[i].envs > 0)
            && (run[i].pc == |cx.code| ==> run[i].envs == 0)
    decreases i
  {
    hide Emit;
    var cx0 := Cx([], [], [], [], 0, false);
    var cx := Emit(cx0, [], s);
    EmitGood(cx0, [], s);
    if i > 0 {
      Balanced(s, run, i - 1);
      assert Steps(cx, run[i - 1], run[i - 1 + 1]);
      assert Fits(cx, run[i - 1].pc);
    }
    if run[i].pc < |cx.code| { assert Fits(cx, run[i].pc); }
  }
}
