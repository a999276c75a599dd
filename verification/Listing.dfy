/**
 Emitted code as a list of whole instructions, with the places labels and handlers are
 bound to marked in between, and what lowering promises of every stretch of it: which
 registers it touches, and that the operands of an arithmetic instruction are
 temporaries that nothing else looks at.
 */
module Listing {
  import opened Words
  import opened Machine
  import opened Assembly
  import opened Source
  import opened Lowering
  import opened Growth
  import opened Steps

  datatype Op =
    | Reg(op: Opcode, x: nat, y: nat, z: nat, mask: Byte)
    | IntW(dst: nat, v: int)
    | CallW(dst: nat, callee: nat, argc: nat)
    | Jump(op: Opcode, reg: nat, lab: nat)
    | Mark

  type Ops = seq<Op>

  // The words of one element; a mark has none.
  function ItemsOf(o: Op): seq<Item> {
    match o
    case Reg(op, x, y, z, mask) => Raws(EncodeRegs(op, x, y, z, mask))
    case IntW(dst, v) => Raws(EncodeIntW(dst, v))
    case CallW(dst, callee, argc) => Raws(EncodeCallW(dst, callee, argc))
    case Jump(op, reg, lab) => (if reg <= 255 then [] else Raws(Prefix(1, reg, 0, 0))) + [Branch(op, Low8(reg), lab)]
    case Mark => []
  }

  function Items(os: Ops): seq<Item> {
    if os == [] then [] else Items(os[..|os| - 1]) + ItemsOf(os[|os| - 1])
  }

  lemma ItemsSnoc(os: Ops, o: Op)
    ensures Items(os + [o]) == Items(os) + ItemsOf(o)
  {
    hide ItemsOf;
    assert (os + [o])[..|os|] == os;
  }

  lemma {:induction false} ItemsCat(os: Ops, more: Ops)
    ensures Items(os + more) == Items(os) + Items(more)
    decreases |more|
  {
    hide ItemsOf;
    if more == [] {
      assert os + more == os;
    } else {
      hide Items;
      var (init, last) := (more[..|more| - 1], more[|more| - 1]);
      ItemsCat(os, init);
      assert more == init + [last] && os + more == (os + init) + [last];
      ItemsSnoc(init, last);
      ItemsSnoc(os + init, last);
    }
  }

  // Where element k starts.
  function Off(os: Ops, k: nat): nat
    requires k <= |os|
  {
    |Items(os[..k])|
  }

  // ---- one instruction --------------------------------------------------

  // The opcodes lowering writes with register operands.
  predicate Lowered(op: Opcode) {
    || op == MOVE || op == LOAD_CONST || op == LOAD_INT || op == LOOP_HEADER || op == CALL || op == RETURN
    || op == THROW
    || op == GET_PROPERTY || op == GET_ITERATOR || op == ITERATOR_NEXT || op == ITERATOR_CLOSE
    || UnaryOp(op) || BinaryOp(op)
  }

  // The registers it reads.
  function Uses(o: Op): seq<nat> {
    match o
    case Reg(op, x, y, z, _) => NarrowShape(LogicalOf(op, x, y, z, 1)).uses
    case IntW(_, _) => []
    case CallW(_, callee, argc) => Window(callee, CALL_HEADER_REGS + argc)
    case Jump(op, reg, _) => if op == JUMP then [] else [reg]
    case Mark => []
  }

  // The register it writes.
  function Writes(o: Op): Option<nat> {
    match o
    case Reg(op, x, y, z, _) => NarrowShape(LogicalOf(op, x, y, z, 1)).write
    case IntW(dst, _) => Some(dst)
    case CallW(dst, _, _) => Some(dst)
    case _ => None
  }

  predicate Folds(o: Op) { o.Reg? && IsFoldable(o.op) }

  predicate Produces(o: Op) { o.Reg? && (o.op == LOAD_INT || IsFoldable(o.op)) }

  predicate OneWord(o: Op) {
    match o
    case Reg(_, x, y, z, _) => x <= 255 && y <= 255 && z <= 255
    case Jump(_, reg, _) => reg <= 255
    case _ => false
  }

  // What folding and branch deletion can make disappear.
  predicate Quiet(o: Op) {
    o.Mark? || (OneWord(o) && (Produces(o) || (o.Jump? && o.op != JUMP_IF_NULLISH)))
  }

  // Registers a stretch of code may touch: the locals and the reserved register, its
  // own temporaries lo .. hi, and the ones it is handed.
  datatype Scope = Scope(base: nat, lo: nat, hi: nat, ins: set<nat>) {
    predicate Has(r: nat) { r <= base || lo <= r < hi || r in ins }
  }

  // Operand slots that hold no register fit a byte.
  predicate Padded(op: Opcode, x: nat, y: nat, z: nat) {
    && (op == LOOP_HEADER ==> x <= 255)
    && (op == LOOP_HEADER || op == RETURN || op == THROW || op == ITERATOR_CLOSE ==> y <= 255)
    && (op == LOAD_CONST || op == LOAD_INT ==> y <= 255)
    && (BinaryOp(op) || op == GET_PROPERTY || op == CALL || z <= 255)
  }

  // An instruction within its scope.  A literal or an arithmetic result goes to a
  // temporary of the stretch, and arithmetic reads two different ones of it.
  ghost predicate OpOk(o: Op, sc: Scope, pool: nat) {
    && (forall r :: r in Uses(o) ==> sc.Has(r))
    && (Writes(o).Some? ==> sc.Has(Writes(o).value))
    && match o
       case Reg(op, x, y, z, mask) =>
         && Lowered(op) && FitsMask(x, y, z, mask) && Padded(op, x, y, z)
         && (op == LOAD_CONST ==> y <= 255 && z <= 255 && y * 256 + z < pool)
         && (op == ITERATOR_CLOSE ==> y <= 1)
         && (Produces(o) ==> sc.lo <= x < sc.hi)
         && (Folds(o) ==> sc.lo <= y < sc.hi && sc.lo <= z < sc.hi && y != z)
       case IntW(dst, _) => dst < 0x1_0000
       case CallW(dst, callee, argc) => dst < 0x1_0000 && callee < 0x1_0000 && argc < 0x1_0000
       case Jump(op, reg, _) => IsBranch(op) && reg < 0x1_0000 && (op == JUMP ==> reg == 0)
       case Mark => true
  }

  ghost predicate OpsOk(os: Ops, sc: Scope, pool: nat) { forall k :: 0 <= k < |os| ==> OpOk(os[k], sc, pool) }

  // r is an operand of some arithmetic instruction of os.
  ghost predicate Spends(os: Ops, r: nat) { exists k :: 0 <= k < |os| && SpentBy(os[k], r) }

  predicate SpentBy(o: Op, r: nat) { Folds(o) && (r == o.y || r == o.z) }

  // ---- arithmetic on literals -------------------------------------------

  // The operands of element q are produced at i1 and i2, with nothing but quiet
  // instructions from there on.
  ghost predicate Fed(os: Ops, i1: nat, i2: nat, q: nat) {
    && i1 < q && i2 < q && i1 != i2 && q < |os|
    && Folds(os[q]) && OneWord(os[q])
    && Produces(os[i1]) && Produces(os[i2]) && os[i1].x == os[q].y && os[i2].x == os[q].z
    && forall k :: i1 <= k < q || i2 <= k < q ==> Quiet(os[k])
  }

  // Nothing else reads the operands of element q.
  ghost predicate ReadOnce(os: Ops, q: nat) {
    && q < |os| && os[q].Reg?
    && forall k :: 0 <= k < |os| && k != q ==> os[q].y !in Uses(os[k]) && os[q].z !in Uses(os[k])
  }

  // No mark lies between i1 or i2 and q.
  ghost predicate Unmarked(os: Ops, i1: nat, i2: nat, q: nat) {
    q <= |os| && forall k :: i1 < k < q || i2 < k < q ==> !os[k].Mark?
  }

  ghost predicate Frugal(os: Ops) {
    forall i1: nat, i2: nat, q: nat :: Fed(os, i1, i2, q) ==> ReadOnce(os, q) && Unmarked(os, i1, i2, q)
  }

  // ---- what an expression adds ------------------------------------------

  // Every mark has an instruction in front that is not quiet.
  ghost predicate Shielded(os: Ops) {
    forall k :: 0 <= k < |os| && os[k].Mark? ==> LoudBefore(os, k)
  }

  ghost predicate LoudBefore(os: Ops, k: nat)
    requires k <= |os|
  {
    exists j :: 0 <= j < k && !Quiet(os[j])
  }

  // Where r is produced with nothing but quiet instructions behind, nothing reads r
  // and no mark follows.
  ghost predicate Pristine(os: Ops, r: nat) {
    forall i: nat :: Last(os, r, i) ==> Unread(os, r) && forall k :: i < k < |os| ==> !os[k].Mark?
  }

  ghost predicate Last(os: Ops, r: nat, i: nat) {
    i < |os| && Produces(os[i]) && os[i].x == r && forall k :: i <= k < |os| ==> Quiet(os[k])
  }

  ghost predicate Unread(os: Ops, r: nat) { forall k :: 0 <= k < |os| ==> r !in Uses(os[k]) }

  // ---- a stretch of emission --------------------------------------------

  ghost predicate Small(b: Ctx, base: nat) {
    !b.failed && base < b.top <= b.high <= MAX_REGS && |b.consts| <= MAX_CONSTANTS
  }

  // Place pos is marked in os, which starts at place `start`.
  ghost predicate MarkedAt(os: Ops, start: nat, pos: nat) {
    exists k :: 0 <= k < |os| && os[k].Mark? && pos == start + Off(os, k)
  }

  // From b to f exactly os was emitted, and every label bound and every handler added
  // on the way is at a mark.
  ghost predicate Placed(b: Ctx, f: Ctx, os: Ops) {
    && f.items == b.items + Items(os)
    && |b.labels| <= |f.labels| && b.handlers <= f.handlers && b.consts <= f.consts
    && (forall l :: 0 <= l < |f.labels| && f.labels[l].Some? ==>
          (l < |b.labels| && b.labels[l] == f.labels[l]) || MarkedAt(os, |b.items|, f.labels[l].value))
    && (forall j :: |b.handlers| <= j < |f.handlers| ==>
          f.handlers[j].start <= |f.items| && f.handlers[j].end <= |f.items|
          && MarkedAt(os, |b.items|, f.handlers[j].target))
  }

  function ScopeOf(b: Ctx, f: Ctx, base: nat, ins: set<nat>): Scope { Scope(base, b.top, f.top, ins) }

  ghost predicate Region(b: Ctx, f: Ctx, os: Ops, base: nat, ins: set<nat>) {
    && Small(b, base) && Small(f, base) && b.top <= f.top
    && Placed(b, f, os)
    && (forall r :: r in ins ==> r < b.top)
    && OpsOk(os, ScopeOf(b, f, base, ins), |f.consts|)
    && Frugal(os)
  }

  // The stretch of an expression with its result in r.
  ghost predicate Yields(b: Ctx, f: Ctx, os: Ops, base: nat, r: nat) {
    Region(b, f, os, base, {}) && b.top <= r < f.top && !Spends(os, r) && Shielded(os) && Pristine(os, r)
  }

  // ---- composition ------------------------------------------------------

  lemma MarkedLeft(os: Ops, more: Ops, start: nat, pos: nat)
    requires MarkedAt(os, start, pos)
    ensures MarkedAt(os + more, start, pos)
  {
    hide Items;
    var k :| 0 <= k < |os| && os[k].Mark? && pos == start + Off(os, k);
    assert (os + more)[..k] == os[..k] && (os + more)[k] == os[k];
  }

  lemma MarkedRight(os: Ops, more: Ops, start: nat, pos: nat)
    requires MarkedAt(more, start + |Items(os)|, pos)
    ensures MarkedAt(os + more, start, pos)
  {
    hide Items;
    var k :| 0 <= k < |more| && more[k].Mark? && pos == start + |Items(os)| + Off(more, k);
    assert (os + more)[..|os| + k] == os + more[..k] && (os + more)[|os| + k] == more[k];
    ItemsCat(os, more[..k]);
  }

  lemma PlacedTrans(b: Ctx, m: Ctx, f: Ctx, os: Ops, more: Ops)
    requires Placed(b, m, os) && Placed(m, f, more)
    ensures Placed(b, f, os + more)
  {
    hide Items; hide MarkedAt;
    ItemsCat(os, more);
    forall l | 0 <= l < |f.labels| && f.labels[l].Some? && !(l < |b.labels| && b.labels[l] == f.labels[l])
      ensures MarkedAt(os + more, |b.items|, f.labels[l].value)
    {
      if l < |m.labels| && m.labels[l] == f.labels[l] {
        MarkedLeft(os, more, |b.items|, f.labels[l].value);
      } else {
        MarkedRight(os, more, |b.items|, f.labels[l].value);
      }
    }
    forall j | |b.handlers| <= j < |f.handlers|
      ensures f.handlers[j].start <= |f.items| && f.handlers[j].end <= |f.items|
              && MarkedAt(os + more, |b.items|, f.handlers[j].target)
    {
      if j < |m.handlers| {
        assert f.handlers[j] == m.handlers[j];
        MarkedLeft(os, more, |b.items|, f.handlers[j].target);
      } else {
        MarkedRight(os, more, |b.items|, f.handlers[j].target);
      }
    }
  }

  lemma OpWiden(o: Op, sc: Scope, pool: nat, sc': Scope, pool': nat)
    requires OpOk(o, sc, pool) && pool <= pool' && sc'.lo <= sc.lo && sc.hi <= sc'.hi
    requires forall r :: sc.Has(r) ==> sc'.Has(r)
    ensures OpOk(o, sc', pool')
  {
    hide Uses; hide Writes; hide Lowered; hide FitsMask; hide Scope.Has;
  }

  // What one stretch reads of the other is nothing the other has spent.
  lemma FrugalCat(os: Ops, more: Ops, sc: Scope, sc': Scope, pool: nat)
    requires OpsOk(os, sc, pool) && OpsOk(more, sc', pool) && Frugal(os) && Frugal(more)
    requires sc.base == sc'.base < sc.lo && sc.hi == sc'.lo && sc.lo <= sc.hi
    requires (forall r :: r in sc.ins ==> r < sc.lo) && forall r :: r in sc'.ins ==> r < sc'.lo && !Spends(os, r)
    ensures Frugal(os + more)
  {
    hide OpsOk; hide Fed; hide ReadOnce; hide Unmarked; hide Spends;
    forall i1: nat, i2: nat, q: nat | Fed(os + more, i1, i2, q)
      ensures ReadOnce(os + more, q) && Unmarked(os + more, i1, i2, q)
    {
      FedCat(os, more, sc, sc', pool, i1, i2, q);
    }
  }

  lemma FedCat(os: Ops, more: Ops, sc: Scope, sc': Scope, pool: nat, i1: nat, i2: nat, q: nat)
    requires OpsOk(os, sc, pool) && OpsOk(more, sc', pool) && Frugal(os) && Frugal(more)
    requires sc.base == sc'.base < sc.lo && sc.hi == sc'.lo && sc.lo <= sc.hi
    requires (forall r :: r in sc.ins ==> r < sc.lo) && forall r :: r in sc'.ins ==> r < sc'.lo && !Spends(os, r)
    requires Fed(os + more, i1, i2, q)
    ensures q < |os + more| && ReadOnce(os + more, q) && Unmarked(os + more, i1, i2, q)
  {
    hide Uses; hide Lowered; hide FitsMask; hide Quiet; hide Writes; hide OpsOk; hide Frugal;
    var all := os + more;
    var n := |os|;
    if q < n {
      FedLeft(os, more, i1, i2, q);
      OperandsOk(os, sc, pool, q);
      assert SpentBy(os[q], os[q].y) && SpentBy(os[q], os[q].z);
      forall k | 0 <= k < |all| && k != q ensures all[q].y !in Uses(all[k]) && all[q].z !in Uses(all[k]) {
        if k >= n { ReadsOk(more, sc', pool, k - n); }
      }
    } else {
      OperandsOk(more, sc', pool, q - n);
      if i1 < n { ResultOk(os, sc, pool, i1); }
      if i2 < n { ResultOk(os, sc, pool, i2); }
      FedRight(os, more, i1, i2, q);
      forall k | 0 <= k < |all| && k != q ensures all[q].y !in Uses(all[k]) && all[q].z !in Uses(all[k]) {
        if k < n { ReadsOk(os, sc, pool, k); }
      }
    }
  }

  lemma ReadsOk(os: Ops, sc: Scope, pool: nat, k: nat)
    requires OpsOk(os, sc, pool) && k < |os|
    ensures forall r :: r in Uses(os[k]) ==> sc.Has(r)
  {
    hide Uses; hide Writes; hide Scope.Has;
    assert OpOk(os[k], sc, pool);
  }

  lemma ResultOk(os: Ops, sc: Scope, pool: nat, k: nat)
    requires OpsOk(os, sc, pool) && k < |os| && Produces(os[k])
    ensures sc.lo <= os[k].x < sc.hi
  {
    hide Uses; hide Writes; hide Scope.Has;
    assert OpOk(os[k], sc, pool);
  }

  lemma OperandsOk(os: Ops, sc: Scope, pool: nat, q: nat)
    requires OpsOk(os, sc, pool) && q < |os| && Folds(os[q])
    ensures sc.lo <= os[q].y < sc.hi && sc.lo <= os[q].z < sc.hi && os[q].y != os[q].z
  {
    hide Uses; hide Writes;
    assert OpOk(os[q], sc, pool);
  }

  lemma FedLeft(os: Ops, more: Ops, i1: nat, i2: nat, q: nat)
    requires Fed(os + more, i1, i2, q) && q < |os| && Frugal(os)
    ensures ReadOnce(os, q) && Unmarked(os + more, i1, i2, q)
  {
    hide Uses; hide Quiet;
    assert Fed(os, i1, i2, q) by {
      forall k | i1 <= k < q || i2 <= k < q ensures Quiet(os[k]) { assert os[k] == (os + more)[k]; }
    }
    forall k | i1 < k < q || i2 < k < q ensures !(os + more)[k].Mark? { assert (os + more)[k] == os[k]; }
  }

  lemma FedRight(os: Ops, more: Ops, i1: nat, i2: nat, q: nat)
    requires Fed(os + more, i1, i2, q) && i1 >= |os| && i2 >= |os| && Frugal(more)
    ensures q - |os| < |more| && ReadOnce(more, q - |os|) && Unmarked(os + more, i1, i2, q)
  {
    hide Uses; hide Quiet;
    var n := |os|;
    assert Fed(more, i1 - n, i2 - n, q - n) by {
      forall k | i1 - n <= k < q - n || i2 - n <= k < q - n
        ensures Quiet(more[k])
      {
        assert more[k] == (os + more)[k + n];
      }
    }
    forall k | i1 < k < q || i2 < k < q ensures !(os + more)[k].Mark? { assert (os + more)[k] == more[k - n]; }
  }

  // One stretch after another.
  lemma RegionThen(b: Ctx, m: Ctx, f: Ctx, os: Ops, more: Ops, base: nat, ins: set<nat>, ins': set<nat>)
    requires Region(b, m, os, base, ins) && Region(m, f, more, base, ins')
    requires forall r :: r in ins' ==> (r in ins || b.top <= r) && !Spends(os, r)
    ensures Region(b, f, os + more, base, ins)
  {
    PlacedTrans(b, m, f, os, more);

    var (sc, sc1, sc2) := (ScopeOf(b, f, base, ins), ScopeOf(b, m, base, ins), ScopeOf(m, f, base, ins'));
    forall k | 0 <= k < |os| ensures OpOk(os[k], sc, |f.consts|) && OpOk(os[k], sc1, |f.consts|) {
      OpWiden(os[k], sc1, |m.consts|, sc, |f.consts|);
      OpWiden(os[k], sc1, |m.consts|, sc1, |f.consts|);
    }
    forall k | 0 <= k < |more| ensures OpOk(more[k], sc, |f.consts|) {
      OpWiden(more[k], sc2, |f.consts|, sc, |f.consts|);
    }
    FrugalCat(os, more, sc1, sc2, |f.consts|);
  }

  // What a stretch spends are its own temporaries.
  lemma SpendsOwn(b: Ctx, f: Ctx, os: Ops, base: nat, ins: set<nat>, r: nat)
    requires Region(b, f, os, base, ins) && Spends(os, r)
    ensures b.top <= r < f.top
  {
    hide Placed; hide Frugal; hide Uses; hide Writes;
    var k :| 0 <= k < |os| && SpentBy(os[k], r);
    assert OpOk(os[k], ScopeOf(b, f, base, ins), |f.consts|);
  }
}
