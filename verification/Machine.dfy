/**
 The reference machine: one activation of `Mini::run_fn`
 (crates/test-support/src/mini.rs), extended with the two things the mini
 interpreter leaves to the real one: `RegExt` prefixes, and the truncation of the
 register window when an exception is delivered (crates/v12-interp/src/execute.rs
 and call_setup.rs).

 Everything an instruction can ask of the world outside the frame (property
 access, calls, iterators, environments, coercing operators) is a request to a
 `Host`.  A host answers from the request and the complete history of earlier
 requests, so it can be any deterministic object graph; the history itself is the
 observable trace of a run.
 */
module Machine {
  import opened Words

  // ---- values -----------------------------------------------------------

  // Numbers: integers in the exact range, the negative zero, and the rest by bit pattern.
  datatype Number = Int(i: int) | NegZero | NaN | Float(bits: int)

  datatype Val =
    | Undefined
    | Null
    | Bool(b: bool)
    | Num(n: Number)
    | Str(s: string)
    | Ref(id: int)

  predicate Truthy(v: Val) {
    match v
    case Undefined => false
    case Null => false
    case Bool(b) => b
    case Num(n) => !(n == Int(0) || n == NegZero || n == NaN)
    case Str(s) => s != ""
    case Ref(_) => true
  }

  predicate Nullish(v: Val) {
    v.Undefined? || v.Null?
  }

  predicate StrictEq(l: Val, r: Val) {
    if l.Num? && r.Num? then
      l.n != NaN && r.n != NaN && (l.n == r.n || (IsZero(l.n) && IsZero(r.n)))
    else
      l == r
  }

  predicate IsZero(n: Number) {
    n == Int(0) || n == NegZero
  }

  predicate SameKind(l: Val, r: Val) {
    match l
    case Undefined => r.Undefined?
    case Null => r.Null?
    case Bool(_) => r.Bool?
    case Num(_) => r.Num?
    case Str(_) => r.Str?
    case Ref(_) => r.Ref?
  }

  // Strict equality is an equivalence on everything but NaN, which equals nothing; it
  // identifies the two zeros and no other two values.
  lemma StrictEqLaws(l: Val, r: Val, v: Val)
    ensures StrictEq(l, r) <==> StrictEq(r, l)
    ensures StrictEq(l, l) <==> l != Num(NaN)
    ensures StrictEq(l, r) && StrictEq(r, v) ==> StrictEq(l, v)
    ensures StrictEq(Num(Int(0)), Num(NegZero))
    ensures StrictEq(l, r) ==> SameKind(l, r) && (l == r || {l, r} == {Num(Int(0)), Num(NegZero)})
  {
  }

  // The seven values that are not truthy.
  lemma FalsyValues(v: Val)
    ensures !Truthy(v) <==> v in {Undefined, Null, Bool(false), Num(Int(0)), Num(NegZero), Num(NaN), Str("")}
  {
  }

  // Loose equality, where the rule decides it without calling into objects.
  function LooseEq(l: Val, r: Val): Option<bool> {
    if Nullish(l) || Nullish(r) then Some(Nullish(l) && Nullish(r))
    else if (l.Num? && r.Num?) || (l.Str? && r.Str?) || (l.Bool? && r.Bool?) || (l.Ref? && r.Ref?) then
      Some(StrictEq(l, r))
    else None
  }

  // Loose equality of values of one kind is strict equality, null and undefined equal
  // each other and nothing else, and the rest is left to conversion.
  lemma LooseEqLaws(l: Val, r: Val)
    ensures LooseEq(l, r) == LooseEq(r, l)
    ensures SameKind(l, r) ==> LooseEq(l, r) == Some(StrictEq(l, r))
    ensures Nullish(l) ==> LooseEq(l, r) == Some(Nullish(r))
    ensures LooseEq(l, r).None? <==> !Nullish(l) && !Nullish(r) && !SameKind(l, r)
  {
  }

  const MAX_EXACT: int := 0x20_0000_0000_0000

  predicate Exact(i: int) {
    -MAX_EXACT <= i <= MAX_EXACT
  }

  // The product as a sum, so that proofs about code need no nonlinear arithmetic.
  function Times(i: int, j: int): int
    decreases if j < 0 then -j else j
  {
    if j == 0 then 0 else if j > 0 then Times(i, j - 1) + i else Times(i, j + 1) - i
  }

  lemma {:induction false} TimesProduct(i: int, j: int)
    ensures Times(i, j) == i * j
    decreases if j < 0 then -j else j
  {
    if j > 0 {
      TimesProduct(i, j - 1);
      assert i * j == i * (j - 1) + i;
    } else if j < 0 {
      TimesProduct(i, j + 1);
      assert i * j == i * (j + 1) - i;
    }
  }

  // Addition, subtraction and multiplication of two exact integers, when the
  // result is exact; a zero product with a negative factor is the negative zero.
  function Arith(op: Opcode, i: int, j: int): Option<Number>
    requires IsFoldable(op)
  {
    var r := if op == ADD then i + j else if op == SUB then i - j else Times(i, j);
    if !(Exact(i) && Exact(j) && Exact(r)) then None
    else if op == MUL && r == 0 && (i < 0 || j < 0) then Some(NegZero)
    else Some(Int(r))
  }

  // ---- host -------------------------------------------------------------

  datatype Request = Request(op: Opcode, imms: seq<nat>, args: seq<Val>)
  datatype Answer = Ok(v: Val) | Err(v: Val)
  datatype Event = Event(req: Request, ans: Answer)
  type Trace = seq<Event>

  // A close on the throw path is best effort: its errors are swallowed, so that the
  // error that is on its way stands.
  function Heard(req: Request, ans: Answer): Answer {
    if ans.Err? && req.op == ITERATOR_CLOSE && req.imms == [0] then Ok(Undefined) else ans
  }
  type Host = (Request, Trace) -> Answer

  // ---- programs and states ----------------------------------------------

  datatype Handler = Handler(start: nat, end: nat, target: nat, depth: nat) {
    predicate Covers(pc: nat) { start <= pc < end }
  }

  datatype Code = Code(instrs: seq<Instr>, consts: seq<Val>, handlers: seq<Handler>)

  datatype Machine = Machine(code: Code, host: Host, truncates: bool)

  type Regs = map<nat, Val>

  datatype State = State(pc: nat, regs: Regs, tr: Trace)

  // Registers start out undefined.
  function Get(regs: Regs, r: nat): Val {
    if r in regs then regs[r] else Undefined
  }

  // The covering range with the greatest start; the last one of equals.
  function FindHandler(hs: seq<Handler>, pc: nat): (h: Option<Handler>)
    ensures h.Some? ==> h.value in hs && h.value.Covers(pc)
    ensures h.None? <==> forall i :: 0 <= i < |hs| ==> !hs[i].Covers(pc)
    ensures h.Some? ==> forall i :: 0 <= i < |hs| && hs[i].Covers(pc) ==> hs[i].start <= h.value.start
  {
    if hs == [] then None
    else
      var rest := FindHandler(hs[..|hs| - 1], pc);
      var last := hs[|hs| - 1];
      if last.Covers(pc) && (rest.None? || rest.value.start <= last.start) then Some(last) else rest
  }

  // Delivery of an exception into register depth.
  function Deliver(regs: Regs, depth: nat, v: Val, truncates: bool): Regs {
    var kept := if truncates then map r | r in regs && r < depth :: regs[r] else regs;
    kept[depth := v]
  }

  // ---- decoding ---------------------------------------------------------

  // One logical instruction: operands widened by a prefix, total width in words,
  // the word that carries the immediates, and the payload of a wide operation.
  datatype Logical = Logical(op: Opcode, a: nat, b: nat, c: nat, width: nat, word: Instr, payload: seq<Instr>)

  function Decode(instrs: seq<Instr>, pc: nat): (l: Option<Logical>)
    ensures l.Some? ==> 1 <= l.value.width && pc + l.value.width <= |instrs|
  {
    if pc >= |instrs| || !Assigned(instrs[pc].op) then None
    else
      var w := instrs[pc];
      if w.op != WIDE then Some(Logical(w.op, w.a, w.b, w.c, 1, w, []))
      else if w.c > MAX_DISC || pc + WideWidth(w.c) > |instrs| then None
      else if w.c != REG_EXT then
        Some(Logical(WIDE, 0, 0, 0, WideWidth(w.c), w, instrs[pc + 1..pc + WideWidth(w.c)]))
      else if pc + 2 >= |instrs| || !Assigned(instrs[pc + 2].op) || instrs[pc + 2].op == WIDE then None
      else
        var ext := instrs[pc + 1];
        var n := instrs[pc + 2];
        Some(Logical(n.op, Merge(w.a, 0, ext.a, n.a), Merge(w.a, 1, ext.b, n.b),
                     Merge(w.a, 2, ext.c, n.c), 3, n, []))
  }

  function Window(base: nat, n: nat): (s: seq<nat>)
    ensures |s| == n && forall i :: 0 <= i < n ==> s[i] == base + i
  {
    seq(n, i requires 0 <= i < n => base + i)
  }

  const CALL_HEADER_REGS: nat := 2

  // Registers an operand slot reads; a call header or element base reads its whole window.
  function SlotReads(r: Role, reg: nat, count: nat): seq<nat> {
    match r
    case Src => [reg]
    case InOut => [reg]
    case Callee => Window(reg, CALL_HEADER_REGS + count)
    case ElemBase => Window(reg, count)
    case Pair => [reg, reg + 1]
    case _ => []
  }

  function SlotImm(r: Role, v: nat): seq<nat> {
    if IsImmediate(r) then [v] else []
  }

  // What a logical instruction does to the frame, apart from its own computation:
  // the opcode it asks the host for, its immediates, the registers it reads and
  // the register it writes.
  datatype Shape = Shape(op: Opcode, imms: seq<nat>, uses: seq<nat>, write: Option<nat>)

  function NarrowShape(l: Logical): Shape {
    var r := RolesOf(l.op);
    var count := if r.c.Count? then l.c else 0;
    // These two mutate the object their "destination" register names and write no register.
    if l.op == ARRAY_APPEND then Shape(l.op, [], [l.a, l.b], None)
    else if l.op == MERGE_OBJECT then Shape(l.op, [], [l.b, l.c], None)
    else
      Shape(l.op,
            SlotImm(r.a, l.a) + SlotImm(r.b, l.b) + SlotImm(r.c, l.c),
            SlotReads(r.a, l.a, 0) + SlotReads(r.b, l.b, count) + SlotReads(r.c, l.c, 0),
            if r.a.Dst? || r.a.InOut? then Some(l.a) else None)
  }

  // Payload words 1 and 2 of a wide operation, read as two halves each.
  function WideShape(disc: Byte, p: seq<Instr>): Shape
    requires disc <= MAX_DISC && disc != REG_EXT
    requires |p| == WideWidth(disc) - 1
  {
    var p2 := if |p| > 1 then p[1] else p[0];
    var (h0, h1, h2, h3) := (p[0].Hi(), p[0].Lo(), p2.Hi(), p2.Lo());
    if disc == LOAD_CONST_W then Shape(LOAD_CONST, [h1 * 0x1_0000 + p2.Raw()], [], Some(h0))
    else if disc == LOAD_INT_W then Shape(LOAD_INT, [p[0].Raw(), p[1].Raw()], [], Some(p[2].Lo()))
    else if disc == 2 then Shape(GET_ENV_SLOT, [h1, h3], [], Some(h0))
    else if disc == 3 then Shape(SET_ENV_SLOT, [h1, h3], [h0], None)
    else if disc == CALL_W then Shape(CALL, [h3], Window(h1, CALL_HEADER_REGS + h3), Some(h0))
    else if disc == 5 then Shape(COPY_OBJECT_REST, [h3], [h1] + Window(h2, h3), Some(h0))
    else if disc == 6 then Shape(COPY_ARRAY_REST, [h3], [h1], Some(h0))
    else if disc == 8 then Shape(CLOSURE, [h1], [], Some(h0))
    else if disc == 9 then Shape(NEW_ENVIRONMENT, [h1], [], None)
    else if disc == 10 then Shape(CONSTRUCT, [h3], Window(h1, CALL_HEADER_REGS + h3), Some(h0))
    else if disc == 11 then Shape(WIDE, [11, h1, p2.Raw()], [], Some(h0))
    else if disc == 12 then Shape(WIDE, [12, h2], [h0, h1], None)
    else if disc == 13 then Shape(WIDE, [13], [h0, h1, h2], None)
    else if disc == 14 then Shape(WIDE, [14], [h1, h2], Some(h0))
    else if disc == 15 then Shape(WIDE, [15], [h0, h1, h2, h3], None)
    else Shape(WIDE, [16], [h1, h2, h3], Some(h0))
  }

  // Two's complement reading of the 64 bits split low word first.
  function Signed64(lo: nat, hi: nat): int {
    var u := hi * 0x1_0000_0000 + lo;
    if hi < 0x8000_0000 then u else u - 0x1_0000_0000_0000_0000
  }

  function ShapeOf(l: Logical): Shape
    requires Decoded(l)
  {
    if l.op == WIDE then WideShape(l.word.c, l.payload) else NarrowShape(l)
  }

  predicate Decoded(l: Logical) {
    l.op == WIDE ==> l.word.c <= MAX_DISC && l.word.c != REG_EXT && |l.payload| == WideWidth(l.word.c) - 1
  }

  // ---- execution --------------------------------------------------------

  datatype Effect =
    | Next(regs: Regs, tr: Trace)
    | Goto(pc: nat)
    | Halt(v: Val)
    | Raise(v: Val, tr: Trace)
    | Bad

  function Reads(regs: Regs, rs: seq<nat>): (vs: seq<Val>)
    ensures |vs| == |rs| && forall i :: 0 <= i < |rs| ==> vs[i] == Get(regs, rs[i])
  {
    seq(|rs|, i requires 0 <= i < |rs| => Get(regs, rs[i]))
  }

  function AskHost(host: Host, req: Request, write: Option<nat>, regs: Regs, tr: Trace): Effect {
    var ans := host(req, tr);
    var tr' := tr + [Event(req, ans)];
    match Heard(req, ans)
    case Ok(v) => Next(if write.Some? then regs[write.value := v] else regs, tr')
    case Err(v) => Raise(v, tr')
  }

  // Binary operators that never leave the frame on these operands.
  function PureBinary(op: Opcode, l: Val, r: Val): Option<Val> {
    if IsFoldable(op) && l.Num? && r.Num? && l.n.Int? && r.n.Int? then
      var n := Arith(op, l.n.i, r.n.i);
      if n.Some? then Some(Num(n.value)) else None
    else if op == STRICT_EQ then Some(Bool(StrictEq(l, r)))
    else if op == STRICT_NE then Some(Bool(!StrictEq(l, r)))
    else if (op == EQ || op == NE) && LooseEq(l, r).Some? then
      Some(Bool(LooseEq(l, r).value == (op == EQ)))
    else None
  }

  predicate IsBinary(op: int) {
    10 <= op <= 31 && op != 16 && op != 23
  }

  function Exec(code: Code, host: Host, l: Logical, regs: Regs, tr: Trace): Effect
    requires Decoded(l)
  {
    if l.op == MOVE then Next(regs[l.a := Get(regs, l.b)], tr)
    else if l.op == LOAD_INT then Next(regs[l.a := Num(Int(Sign8(l.word.c)))], tr)
    else if l.op == LOAD_CONST then
      if l.word.Imm16() < |code.consts| then Next(regs[l.a := code.consts[l.word.Imm16()]], tr) else Bad
    else if l.op == LOOP_HEADER then Next(regs, tr)
    else if l.op == JUMP then Goto(l.word.Imm24())
    else if l.op == JUMP_IF_FALSE then
      if Truthy(Get(regs, l.a)) then Next(regs, tr) else Goto(l.word.Imm16())
    else if l.op == JUMP_IF_TRUE then
      if Truthy(Get(regs, l.a)) then Goto(l.word.Imm16()) else Next(regs, tr)
    else if l.op == JUMP_IF_NULLISH then
      if Nullish(Get(regs, l.a)) then Goto(l.word.Imm16()) else Next(regs, tr)
    else if l.op == RETURN then Halt(Get(regs, l.a))
    else if l.op == THROW then Raise(Get(regs, l.a), tr)
    else if l.op == NOT then Next(regs[l.a := Bool(!Truthy(Get(regs, l.b)))], tr)
    else if IsBinary(l.op) then
      var x := Get(regs, l.b);
      var y := Get(regs, l.c);
      var v := PureBinary(l.op, x, y);
      if v.Some? then Next(regs[l.a := v.value], tr)
      else AskHost(host, Request(l.op, [], [x, y]), Some(l.a), regs, tr)
    else if l.op == GEN_RESUME_MODE then Bad
    else if l.op == WIDE && l.word.c == LOAD_INT_W then
      Next(regs[l.payload[2].Lo() := Num(Int(Signed64(l.payload[0].Raw(), l.payload[1].Raw())))], tr)
    else if l.op == WIDE && l.word.c == LOAD_CONST_W then
      var sh := ShapeOf(l);
      if sh.imms[0] < |code.consts| then Next(regs[sh.write.value := code.consts[sh.imms[0]]], tr) else Bad
    else
      var sh := ShapeOf(l);
      AskHost(host, Request(sh.op, sh.imms, Reads(regs, sh.uses)), sh.write, regs, tr)
  }

  datatype Result = Returned(v: Val) | Threw(v: Val) | Stuck

  datatype Final = Final(res: Result, regs: Regs, tr: Trace)

  datatype StepResult = Running(s: State) | Done(f: Final)

  // Falling off the end returns undefined.
  function EffectAt(m: Machine, s: State): Effect {
    if s.pc >= |m.code.instrs| then Halt(Undefined)
    else
      var l := Decode(m.code.instrs, s.pc);
      if l.None? then Bad else Exec(m.code, m.host, l.value, s.regs, s.tr)
  }

  function WidthAt(m: Machine, pc: nat): nat {
    var l := Decode(m.code.instrs, pc);
    if l.None? then 0 else l.value.width
  }

  function Step(m: Machine, s: State): StepResult {
    match EffectAt(m, s)
    case Next(regs, tr) => Running(State(s.pc + WidthAt(m, s.pc), regs, tr))
    case Goto(pc) => Running(State(pc, s.regs, s.tr))
    case Halt(v) => Done(Final(Returned(v), s.regs, s.tr))
    case Raise(v, tr) =>
      (match FindHandler(m.code.handlers, s.pc)
       case Some(h) => Running(State(h.target, Deliver(s.regs, h.depth, v, m.truncates), tr))
       case None => Done(Final(Threw(v), s.regs, tr)))
    case Bad => Done(Final(Stuck, s.regs, s.tr))
  }

  // ---- runs -------------------------------------------------------------

  // n steps lead from s to t.
  ghost predicate Runs(m: Machine, s: State, n: nat, t: State)
    decreases n
  {
    if n == 0 then s == t
    else Step(m, s).Running? && Runs(m, Step(m, s).s, n - 1, t)
  }

  // The run from s ends, with final frame f.
  ghost predicate Converges(m: Machine, s: State, f: Final) {
    exists n: nat, t :: Runs(m, s, n, t) && Step(m, t) == Done(f)
  }

  // The run from s is still going after n steps.
  ghost predicate Lasts(m: Machine, s: State, n: nat) {
    exists t :: Runs(m, s, n, t)
  }

  ghost predicate Diverges(m: Machine, s: State) {
    forall n: nat :: Lasts(m, s, n)
  }

  lemma {:induction false} RunsTrans(m: Machine, s: State, n: nat, t: State, k: nat, u: State)
    requires Runs(m, s, n, t) && Runs(m, t, k, u)
    ensures Runs(m, s, n + k, u)
    decreases n
  {
    hide Step;
    if n > 0 {
      RunsTrans(m, Step(m, s).s, n - 1, t, k, u);
    }
  }

  lemma RunsOne(m: Machine, s: State)
    requires Step(m, s).Running?
    ensures Runs(m, s, 1, Step(m, s).s)
  {
    hide Step;
    assert Runs(m, Step(m, s).s, 0, Step(m, s).s);
  }

  // A run has one history: prefixes of the same length end in the same state.
  lemma {:induction false} RunsDeterministic(m: Machine, s: State, n: nat, t: State, u: State)
    requires Runs(m, s, n, t) && Runs(m, s, n, u)
    ensures t == u
    decreases n
  {
    hide Step;
    if n > 0 {
      RunsDeterministic(m, Step(m, s).s, n - 1, t, u);
    }
  }

  lemma {:induction false} RunsSplit(m: Machine, s: State, n: nat, k: nat, t: State) returns (u: State)
    requires k <= n && Runs(m, s, n, t)
    ensures Runs(m, s, k, u) && Runs(m, u, n - k, t)
    decreases k
  {
    hide Step;
    if k == 0 {
      u := s;
    } else {
      u := RunsSplit(m, Step(m, s).s, n - 1, k - 1, t);
    }
  }

  lemma OneMore(m: Machine, s: State, n: nat)
    requires Step(m, s).Running?
    ensures Lasts(m, Step(m, s).s, n) ==> Lasts(m, s, n + 1)
  {
    hide Step;
    if Lasts(m, Step(m, s).s, n) {
      var u :| Runs(m, Step(m, s).s, n, u);
      assert Runs(m, s, n + 1, u);
    }
  }

  // A run that does not last n steps stops at some state before that.
  lemma {:induction false} LastState(m: Machine, s: State, n: nat) returns (k: nat, t: State)
    requires !Lasts(m, s, n)
    ensures Runs(m, s, k, t) && Step(m, t).Done?
    decreases n
  {
    hide Step;
    assert Runs(m, s, 0, s);
    if Step(m, s).Done? {
      k, t := 0, s;
    } else {
      OneMore(m, s, n - 1);
      k, t := LastState(m, Step(m, s).s, n - 1);
      k := k + 1;
    }
  }

  // A run ends or goes on forever, never both, and it ends in one way only.
  lemma ConvergesOrDiverges(m: Machine, s: State)
    ensures Diverges(m, s) <==> !exists f :: Converges(m, s, f)
    ensures forall f, g :: Converges(m, s, f) && Converges(m, s, g) ==> f == g
  {
    hide Step;
    forall f, g | Converges(m, s, f) && Converges(m, s, g)
      ensures f == g
    {
      var n: nat, t :| Runs(m, s, n, t) && Step(m, t) == Done(f);
      var k: nat, u :| Runs(m, s, k, u) && Step(m, u) == Done(g);
      assert t == u && n == k by {
        if n <= k {
          var v := RunsSplit(m, s, k, n, u);
          RunsDeterministic(m, s, n, t, v);
        } else {
          var v := RunsSplit(m, s, n, k, t);
          RunsDeterministic(m, s, k, u, v);
        }
      }
    }
    if Diverges(m, s) {
      forall f ensures !Converges(m, s, f) {
        if Converges(m, s, f) {
          var n: nat, t :| Runs(m, s, n, t) && Step(m, t) == Done(f);
          assert Lasts(m, s, n + 1);
          var u :| Runs(m, s, n + 1, u);
          var v := RunsSplit(m, s, n + 1, n, u);
          RunsDeterministic(m, s, n, t, v);
        }
      }
    } else {
      var n: nat :| !Lasts(m, s, n);
      var k, t := LastState(m, s, n);
      assert Converges(m, s, Step(m, t).f);
    }
  }
}
