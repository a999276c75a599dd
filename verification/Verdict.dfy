/**
 What the validator's verdict on one instruction means, read off what the machine does
 with the instruction (`Machine.ShapeOf`) and off a replay of the environments as a
 linked chain, as the runtime has them (crates/v12-bytecode/src/validate.rs).
 */
module Verdict {
  import opened Words
  import opened Machine
  import opened Assembly
  import opened PeepholeSpec
  import opened PeepholeLayout
  import opened PeepholeThread
  import opened Validator

  // ---- environments as a chain ------------------------------------------

  // The environments of an activation, innermost first, down to the inherited ones, of
  // which nothing is known.
  datatype Chain = Inherited | Frame(slots: nat, parent: Chain)

  function Pushed(l: Logical, c: Chain): Chain
    requires Decoded(l)
  {
    var sh := ShapeOf(l);
    if sh.op == NEW_ENVIRONMENT && sh.imms != [] then Frame(sh.imms[0], c)
    else if sh.op == POP_ENVIRONMENT && c.Frame? then c.parent
    else c
  }

  // The chain on arrival at p, replaying the code in order from `from`.
  function ChainAt(ws: Text, from: nat, c: Chain, p: nat): Chain
    requires from <= |ws|
    decreases |ws| - from
  {
    if from >= p || from == |ws| then c
    else
      var d := Decode(ws, from);
      ChainAt(ws, from + Span(ws, from, true), if d.Some? && Decoded(d.value) then Pushed(d.value, c) else c, p)
  }

  // The environment `depth` links up.
  function Up(c: Chain, depth: nat): Chain {
    if depth == 0 || c.Inherited? then c else Up(c.parent, depth - 1)
  }

  // An access finds a slot in the environment it names, or names an inherited one.
  predicate Finds(l: Logical, c: Chain)
    requires Decoded(l)
  {
    var sh := ShapeOf(l);
    (sh.op == GET_ENV_SLOT || sh.op == SET_ENV_SLOT) && |sh.imms| == 2 ==>
      var e := Up(c, sh.imms[0]);
      e.Inherited? || sh.imms[1] < e.slots
  }

  // ---- the stack and the chain ------------------------------------------

  function ChainOf(envs: EnvStack): Chain {
    if envs == [] then Inherited else Frame(envs[|envs| - 1], ChainOf(envs[..|envs| - 1]))
  }

  lemma {:induction false} UpOf(envs: EnvStack, depth: nat)
    ensures var e := Up(ChainOf(envs), depth);
            if depth < |envs| then e.Frame? && e.slots == envs[|envs| - 1 - depth] else e.Inherited?
    decreases depth
  {
    if depth > 0 && envs != [] { UpOf(envs[..|envs| - 1], depth - 1); }
  }

  // What the machine makes of the environment operations.
  lemma EnvShapes(l: Logical)
    requires Decoded(l)
    ensures var sh := ShapeOf(l);
            && (sh.op == NEW_ENVIRONMENT ==> |sh.imms| >= 1)
            && (l.op == NEW_ENVIRONMENT ==> sh.op == l.op && |sh.imms| >= 1 && sh.imms[0] == l.b)
            && (l.op == WIDE && l.word.c == 9 ==> sh.op == NEW_ENVIRONMENT && sh.imms == [l.payload[0].Lo()])
            && (l.op == POP_ENVIRONMENT <==> sh.op == POP_ENVIRONMENT)
            && (sh.op == NEW_ENVIRONMENT ==> l.op == NEW_ENVIRONMENT || (l.op == WIDE && l.word.c == 9))
            && match Access(l)
               case Some(a) => (sh.op == GET_ENV_SLOT || sh.op == SET_ENV_SLOT) && sh.imms == [a.0, a.1]
               case None => sh.op != GET_ENV_SLOT && sh.op != SET_ENV_SLOT
  {
    hide Instr.Hi; hide Instr.Lo; hide Instr.Raw;
  }

  lemma ChainStep(l: Logical, envs: EnvStack)
    requires Decoded(l)
    ensures ChainOf(EnvsAfter(l, envs)) == Pushed(l, ChainOf(envs))
    ensures AccessOk(Access(l), EnvsAfter(l, envs)) <==> Finds(l, ChainOf(envs))
  {
    hide ShapeOf;
    EnvShapes(l);
    if l.op == NEW_ENVIRONMENT { assert (envs + [l.b])[..|envs|] == envs; }
    if l.op == WIDE && l.word.c == 9 { assert (envs + [l.payload[0].Lo()])[..|envs|] == envs; }
    if Access(l).Some? { UpOf(envs, Access(l).value.0); }
  }

  lemma {:induction false} ChainFollows(ws: Text, from: nat, envs: EnvStack, p: nat)
    requires from <= |ws|
    ensures ChainAt(ws, from, ChainOf(envs), p) == ChainOf(EnvsAt(ws, from, envs, p))
    decreases |ws| - from
  {
    hide Decode; hide EnvsAfter; hide Pushed; hide Span; hide ChainOf;
    if !(from >= p || from == |ws|) {
      var d := Decode(ws, from);
      if d.Some? && Decoded(d.value) {
        ChainStep(d.value, envs);
        ChainFollows(ws, from + Span(ws, from, true), EnvsAfter(d.value, envs), p);
      } else {
        ChainFollows(ws, from + Span(ws, from, true), envs, p);
      }
    }
  }

  // ---- the verdict ------------------------------------------------------

  // The registers an instruction touches, the window of a call cut to its base.
  function Touched(l: Logical): seq<nat>
    requires Decoded(l)
  {
    var sh := ShapeOf(l);
    (if sh.write.Some? then [sh.write.value] else [])
    + if !OpenWindow(l) then sh.uses
      else if l.op != WIDE then [l.b] + SlotReads(RolesOf(l.op).c, l.c, 0)
      else if l.word.c == 5 then [l.payload[0].Lo(), l.payload[1].Hi()]
      else [l.payload[0].Lo()]
  }

  // The constant an instruction loads.
  function Loaded(l: Logical): Option<nat>
    requires Decoded(l)
  {
    if l.op == LOAD_CONST then Some(l.word.Imm16())
    else if ShapeOf(l).op == LOAD_CONST && ShapeOf(l).imms != [] then Some(ShapeOf(l).imms[0]) else None
  }

  // Nothing the instruction does goes out of bounds; an array literal is asked for one
  // register behind its elements.
  predicate InBounds(l: Logical, c: Chain, end: nat, pool: nat, maxRegs: nat)
    requires Decoded(l)
  {
    && (forall r :: r in Touched(l) ==> r < maxRegs)
    && (l.op == NEW_ARRAY ==> l.b + l.c < maxRegs)
    && (l.op != WIDE ==> forall i: nat :: i < 3 && RoleAt(l.op, i).Flag? ==> ByteAt(l.word, i) in {0, 1})
    && (Loaded(l).Some? ==> Loaded(l).value < pool)
    && (IsBranch(l.op) ==> BranchOf(l) <= end)
    && Finds(l, c)
  }

  // Where the operand table puts registers.
  lemma RoleFacts(op: Opcode)
    ensures var r := RolesOf(op);
            && !r.a.Callee? && !r.a.ElemBase? && !r.a.Pair?
            && (r.b.Dst? ==> op == MERGE_OBJECT) && !r.b.Pair? && (r.b.ElemBase? <==> op == NEW_ARRAY)
            && !r.c.Dst? && !r.c.InOut? && !r.c.Callee? && !r.c.ElemBase?
            && (r.c.Pair? <==> op == DEFINE_ACCESSOR || op == DEFINE_ACCESSOR_ENUMERABLE)
            && (op == NEW_ARRAY ==> r.c.Count?)
            && (op == ARRAY_APPEND ==> r == Roles(Dst, Src, Unused))
            && (op == MERGE_OBJECT ==> r == Roles(Unused, Dst, Src))
  {
  }

  // The registers of one operand slot are below n exactly when their last one is.
  lemma SlotBelow(r: Role, reg: nat, count: nat, n: nat)
    requires !r.Callee?
    ensures (forall u :: u in SlotReads(r, reg, count) ==> u < n) <==>
            && (r.Src? || r.InOut? ==> reg < n)
            && (r.Pair? ==> reg + 1 < n)
            && (r.ElemBase? && count > 0 ==> reg + count <= n)
  {
    var us := SlotReads(r, reg, count);
    if r.ElemBase? && count > 0 { assert us[count - 1] == reg + count - 1 && us[count - 1] in us; }
    if r.Pair? { assert us[0] in us && us[1] in us; }
    if r.Src? || r.InOut? { assert us[0] in us; }
  }

  lemma CatBelow(a: seq<nat>, b: seq<nat>, n: nat)
    ensures (forall r :: r in a + b ==> r < n) <==> (forall r :: r in a ==> r < n) && forall r :: r in b ==> r < n
  {
    assert forall r :: r in a + b <==> r in a || r in b;
  }

  lemma NarrowTouched(l: Logical, maxRegs: nat)
    requires l.op != WIDE
    ensures (forall r :: r in Touched(l) ==> r < maxRegs) && (l.op == NEW_ARRAY ==> l.b + l.c < maxRegs) <==>
            RegistersOk(l, maxRegs) && WindowsOk(l, maxRegs)
    ensures Loaded(l) == if l.op == LOAD_CONST then Some(l.word.Imm16()) else None
  {
    RoleFacts(l.op);
    hide RolesOf; hide SlotReads; hide RoleAt;
    var r := RolesOf(l.op);
    var count := if r.c.Count? then l.c else 0;
    RegisterSlots(l, maxRegs);
    SlotBelow(r.a, l.a, 0, maxRegs);
    SlotBelow(r.c, l.c, 0, maxRegs);
    var sh := NarrowShape(l);
    var w := if sh.write.Some? then [sh.write.value] else [];
    assert w != [] ==> w[0] in w;
    assert [l.b][0] in [l.b];
    if l.op == ARRAY_APPEND || l.op == MERGE_OBJECT {
      assert Touched(l) == sh.uses;
      assert sh.uses[0] in sh.uses && sh.uses[1] in sh.uses;
    } else if OpenWindow(l) {
      assert Touched(l) == w + ([l.b] + SlotReads(r.c, l.c, 0));
      CatBelow([l.b], SlotReads(r.c, l.c, 0), maxRegs);
      CatBelow(w, [l.b] + SlotReads(r.c, l.c, 0), maxRegs);
      CallRoles(l.op);
    } else {
      SlotBelow(r.b, l.b, count, maxRegs);
      CatBelow(SlotReads(r.a, l.a, 0), SlotReads(r.b, l.b, count), maxRegs);
      CatBelow(SlotReads(r.a, l.a, 0) + SlotReads(r.b, l.b, count), SlotReads(r.c, l.c, 0), maxRegs);
      CatBelow(w, sh.uses, maxRegs);
      assert Touched(l) == w + sh.uses;
    }
  }

  lemma CallRoles(op: Opcode)
    requires RolesOf(op).b.Callee?
    ensures RolesOf(op).a.Dst?
  {
  }

  lemma RegisterSlots(l: Logical, maxRegs: nat)
    ensures var r := RolesOf(l.op);
            RegistersOk(l, maxRegs) <==> (IsRegister(r.a) ==> l.a < maxRegs) && (IsRegister(r.b) ==> l.b < maxRegs)
                                         && (IsRegister(r.c) ==> l.c < maxRegs)
  {
    hide RolesOf;
    var ro := RolesOf(l.op);
    assert RoleAt(l.op, 0) == ro.a && RoleAt(l.op, 1) == ro.b && RoleAt(l.op, 2) == ro.c;
    assert Operand(l, 0) == l.a && Operand(l, 1) == l.b && Operand(l, 2) == l.c;
  }

  lemma WideTouched(l: Logical, maxRegs: nat)
    requires l.op == WIDE && Decoded(l)
    ensures Touched(l) == WideRegisters(l.word.c, l.payload)
    ensures Loaded(l) == if l.word.c == LOAD_CONST_W then Some(WideConst(l.payload)) else None
  {
    hide Instr.Hi; hide Instr.Lo; hide Instr.Raw;
  }

  // An instruction passes if and only if it stays in bounds.
  lemma VerdictExact(ws: Text, p: nat, pool: nat, maxRegs: nat)
    requires p < |ws| && Decode(ws, p).Some? && Decoded(Decode(ws, p).value)
    ensures InstrOk(ws, p, EnvsAt(ws, 0, [], p), pool, maxRegs) <==>
            InBounds(Decode(ws, p).value, ChainAt(ws, 0, Inherited, p), |ws|, pool, maxRegs)
  {
    hide Decode; hide Touched; hide RegistersOk; hide WindowsOk; hide WideRegisters; hide Finds; hide Access;
    hide EnvsAfter; hide AccessOk; hide BranchOf; hide ChainAt; hide EnvsAt; hide ChainOf; hide ShapeOf;
    var l := Decode(ws, p).value;
    var envs := EnvsAt(ws, 0, [], p);
    ChainFollows(ws, 0, [], p);
    assert ChainOf([]) == Inherited by { EmptyChain(); }
    ChainStep(l, envs);
    if l.op == WIDE { WideTouched(l, maxRegs); } else { NarrowTouched(l, maxRegs); }
  }

  // And code is accepted if and only if every instruction decodes and stays in bounds.
  lemma AcceptsExact(ws: Text, pool: nat, maxRegs: nat)
    ensures Accepts(ws, pool, maxRegs) <==>
            forall p: nat :: p < |ws| && IsHead(ws, true, p) ==>
              && Decode(ws, p).Some? && Decoded(Decode(ws, p).value)
              && InBounds(Decode(ws, p).value, ChainAt(ws, 0, Inherited, p), |ws|, pool, maxRegs)
  {
    hide Walk; hide Decode; hide LogicalOk; hide InBounds; hide ChainAt; hide EnvsAt;
    forall p: nat | p < |ws| && Decode(ws, p).Some? && Decoded(Decode(ws, p).value)
      ensures InstrOk(ws, p, EnvsAt(ws, 0, [], p), pool, maxRegs) <==>
              InBounds(Decode(ws, p).value, ChainAt(ws, 0, Inherited, p), |ws|, pool, maxRegs)
    {
      VerdictExact(ws, p, pool, maxRegs);
    }
  }

  lemma EmptyChain()
    ensures ChainOf([]) == Inherited
  {
  }
}
