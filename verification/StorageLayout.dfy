/**
 Storage layout (`finalize` of crates/v12-bccompiler/src/collect.rs): which register or
 environment slot every binding of a unit, its "initialized" flag, its block-level
 functions and its synthetic `this` and `new.target` cells get.
 */
module StorageLayout {
  import opened Words

  type Sym = nat

  const MAX_REGS: nat := 65535
  const MAX_ENV_SLOTS: nat := 65535

  datatype Loc = Reg(r: nat) | Env(s: nat) | Global

  // What collection found out about a unit.  `home` is the unit a symbol is declared
  // in; `seeded` are module bindings placed by the linker.
  datatype UnitPlan = UnitPlan(
    index: nat,
    arity: nat,
    formals: seq<Option<Sym>>,
    hasRest: bool,
    rest: Option<Sym>,
    decls: seq<Sym>,
    lexical: set<Sym>,
    blocks: seq<Sym>,
    evalReachable: bool,
    needsThis: bool,
    needsNewTarget: bool,
    globals: set<Sym>,
    seeded: seq<Option<Sym>>,
    isModule: bool)

  datatype Layout = Layout(
    vars: map<Sym, Loc>,
    flags: map<Sym, Loc>,
    blocks: seq<Loc>,
    thisSlot: Option<nat>,
    newTargetSlot: Option<nat>,
    hasEnv: bool,
    slots: nat,
    localsEnd: nat)

  // ---- captures -----------------------------------------------------------

  type Homes = map<Sym, nat>

  // A symbol some other unit than its home refers to.
  ghost predicate Escapes(sites: seq<(Sym, nat)>, homes: Homes, sym: Sym) {
    exists i :: 0 <= i < |sites| && sites[i].0 == sym && sym in homes && homes[sym] != sites[i].1
  }

  method Captures(sites: seq<(Sym, nat)>, homes: Homes) returns (captured: set<Sym>)
    ensures forall sym :: sym in captured <==> Escapes(sites, homes, sym)
  {
    captured := {};
    for i := 0 to |sites|
      invariant forall sym :: sym in captured <==> Escapes(sites[..i], homes, sym)
    {
      var (sym, from) := sites[i];
      assert sites[..i + 1] == sites[..i] + [sites[i]];
      EscapesSnoc(sites[..i], sites[i], homes);
      if sym in homes && homes[sym] != from { captured := captured + {sym}; }
    }
    assert sites[..|sites|] == sites;
  }

  lemma EscapesSnoc(sites: seq<(Sym, nat)>, site: (Sym, nat), homes: Homes)
    ensures forall sym :: Escapes(sites + [site], homes, sym) <==>
              Escapes(sites, homes, sym) || (site.0 == sym && sym in homes && homes[sym] != site.1)
  {
    forall sym
      ensures Escapes(sites + [site], homes, sym) <==>
              Escapes(sites, homes, sym) || (site.0 == sym && sym in homes && homes[sym] != site.1)
    {
      var all := sites + [site];
      if Escapes(sites, homes, sym) {
        var i :| 0 <= i < |sites| && sites[i].0 == sym && sym in homes && homes[sym] != sites[i].1;
        assert all[i] == sites[i];
      }
      if site.0 == sym && sym in homes && homes[sym] != site.1 { assert all[|sites|] == site; }
      if Escapes(all, homes, sym) {
        var i :| 0 <= i < |all| && all[i].0 == sym && sym in homes && homes[sym] != all[i].1;
        if i < |sites| { assert sites[i] == all[i]; }
      }
    }
  }

  // ---- cells ----------------------------------------------------------------

  // Everything that owns a cell.
  datatype Claim = Value(sym: Sym) | FlagOf(sym: Sym) | Block(i: nat) | This | NewTarget

  function CellOf(l: Layout, c: Claim): Option<Loc> {
    match c
    case Value(sym) => if sym in l.vars then Some(l.vars[sym]) else None
    case FlagOf(sym) => if sym in l.flags then Some(l.flags[sym]) else None
    case Block(i) => if i < |l.blocks| then Some(l.blocks[i]) else None
    case This => if l.thisSlot.Some? then Some(Env(l.thisSlot.value)) else None
    case NewTarget => if l.newTargetSlot.Some? then Some(Env(l.newTargetSlot.value)) else None
  }

  // No two owners share a cell, registers lie in 1 .. reg and slots in 0 .. slot.
  ghost predicate Injective(l: Layout, reg: nat, slot: nat) {
    && (forall c :: InRange(CellOf(l, c), reg, slot))
    && (forall c, d :: CellOf(l, c).Some? && CellOf(l, c) == CellOf(l, d) && !CellOf(l, c).value.Global? ==> c == d)
  }

  ghost predicate InRange(cell: Option<Loc>, reg: nat, slot: nat) {
    cell.Some? ==>
      match cell.value
      case Reg(r) => 1 <= r < reg
      case Env(s) => s < slot
      case Global => true
  }

  // The register of formal i belongs to formal i, or to nobody.
  ghost predicate FormalsOwn(l: Layout, u: UnitPlan) {
    forall c :: CellOf(l, c).Some? && CellOf(l, c).value.Reg? && 1 <= CellOf(l, c).value.r <= u.arity ==>
      var i := CellOf(l, c).value.r - 1;
      i < |u.formals| && u.formals[i].Some? && c == Value(u.formals[i].value)
  }

  // Storage classes: a captured binding is in the environment, a flag is where its
  // value is.
  ghost predicate Classes(l: Layout, u: UnitPlan, captured: set<Sym>) {
    && (forall sym :: sym in l.vars && (sym in captured || u.evalReachable) ==> !l.vars[sym].Reg?)
    && (forall sym :: sym in l.flags ==>
        sym in l.vars && !l.flags[sym].Global? && (l.flags[sym].Env? <==> l.vars[sym].Env?)
        && (l.flags[sym].Reg? <==> l.vars[sym].Reg?))
    && (forall i :: 0 <= i < |l.blocks| ==>
        !l.blocks[i].Global? && (i < |u.blocks| && (u.blocks[i] in captured || u.evalReachable) ==> l.blocks[i].Env?))
  }

  // What the allocator keeps at every step.
  ghost predicate Sound(l: Layout, u: UnitPlan, captured: set<Sym>, reg: nat, slot: nat) {
    Injective(l, reg, slot) && FormalsOwn(l, u) && Classes(l, u, captured) && reg <= MAX_REGS && slot <= MAX_ENV_SLOTS
  }

  // ---- one more cell ----------------------------------------------------------

  lemma Grow(l: Layout, u: UnitPlan, captured: set<Sym>, reg: nat, slot: nat, reg': nat, slot': nat)
    requires Sound(l, u, captured, reg, slot) && reg <= reg' <= MAX_REGS && slot <= slot' <= MAX_ENV_SLOTS
    ensures Sound(l, u, captured, reg', slot')
  {
    forall c ensures InRange(CellOf(l, c), reg', slot') { assert InRange(CellOf(l, c), reg, slot); }
  }

  // A fresh cell keeps everything, whoever gets it.
  ghost predicate Fresh(cell: Loc, reg: nat, slot: nat, reg': nat, slot': nat) {
    && reg <= reg' <= MAX_REGS && slot <= slot' <= MAX_ENV_SLOTS
    && match cell
       case Reg(r) => 1 <= r && reg <= r < reg'
       case Env(s) => slot <= s < slot'
       case Global => true
  }

  lemma Added(l: Layout, l': Layout, c: Claim, cell: Loc, reg: nat, slot: nat, reg': nat, slot': nat)
    requires Injective(l, reg, slot) && Fresh(cell, reg, slot, reg', slot') && CellOf(l', c) == Some(cell)
    requires forall d :: d != c ==> CellOf(l', d) == CellOf(l, d)
    ensures Injective(l', reg', slot')
  {
    forall d ensures InRange(CellOf(l', d), reg', slot') {
      if d != c { assert InRange(CellOf(l, d), reg, slot); }
    }
    forall d, e | CellOf(l', d).Some? && CellOf(l', d) == CellOf(l', e) && !CellOf(l', d).value.Global? ensures d == e {
      if d != c { assert InRange(CellOf(l, d), reg, slot); }
      if e != c { assert InRange(CellOf(l, e), reg, slot); }
    }
  }

  lemma AddValue(l: Layout, u: UnitPlan, captured: set<Sym>, sym: Sym, cell: Loc, reg: nat, slot: nat, reg': nat,
                 slot': nat)
    requires Sound(l, u, captured, reg, slot) && Fresh(cell, reg, slot, reg', slot') && sym !in l.flags
    requires sym in captured || u.evalReachable ==> !cell.Reg?
    requires cell.Reg? && cell.r <= u.arity ==> cell.r - 1 < |u.formals| && u.formals[cell.r - 1] == Some(sym)
    ensures Sound(l.(vars := l.vars[sym := cell]), u, captured, reg', slot')
  {
    hide Injective;
    var l' := l.(vars := l.vars[sym := cell]);
    forall d | d != Value(sym) ensures CellOf(l', d) == CellOf(l, d) { }
    assert CellOf(l', Value(sym)) == Some(cell);
    Added(l, l', Value(sym), cell, reg, slot, reg', slot');
  }

  lemma AddFlag(l: Layout, u: UnitPlan, captured: set<Sym>, sym: Sym, cell: Loc, reg: nat, slot: nat, reg': nat,
                slot': nat)
    requires Sound(l, u, captured, reg, slot) && Fresh(cell, reg, slot, reg', slot') && sym in l.vars && u.arity < reg
    requires !cell.Global? && (cell.Env? <==> l.vars[sym].Env?) && (cell.Reg? <==> l.vars[sym].Reg?)
    ensures Sound(l.(flags := l.flags[sym := cell]), u, captured, reg', slot')
  {
    hide Injective;
    var l' := l.(flags := l.flags[sym := cell]);
    forall d | d != FlagOf(sym) ensures CellOf(l', d) == CellOf(l, d) { }
    assert CellOf(l', FlagOf(sym)) == Some(cell);
    Added(l, l', FlagOf(sym), cell, reg, slot, reg', slot');
  }

  lemma AddBlock(l: Layout, u: UnitPlan, captured: set<Sym>, cell: Loc, reg: nat, slot: nat, reg': nat, slot': nat)
    requires Sound(l, u, captured, reg, slot) && Fresh(cell, reg, slot, reg', slot') && u.arity < reg && !cell.Global?
    requires |l.blocks| < |u.blocks| && (u.blocks[|l.blocks|] in captured || u.evalReachable ==> cell.Env?)
    ensures Sound(l.(blocks := l.blocks + [cell]), u, captured, reg', slot')
  {
    hide Injective;
    var l' := l.(blocks := l.blocks + [cell]);
    forall d | d != Block(|l.blocks|) ensures CellOf(l', d) == CellOf(l, d) { }
    assert CellOf(l', Block(|l.blocks|)) == Some(cell);
    Added(l, l', Block(|l.blocks|), cell, reg, slot, reg', slot');
  }

  lemma AddSynthetic(l: Layout, l': Layout, c: Claim, u: UnitPlan, captured: set<Sym>, reg: nat, slot: nat)
    requires Sound(l, u, captured, reg, slot) && slot < MAX_ENV_SLOTS
    requires (c.This? && l' == l.(thisSlot := Some(slot))) || (c.NewTarget? && l' == l.(newTargetSlot := Some(slot)))
    ensures Sound(l', u, captured, reg, slot + 1)
  {
    hide Injective;
    forall d | d != c ensures CellOf(l', d) == CellOf(l, d) { }
    assert CellOf(l', c) == Some(Env(slot));
    Added(l, l', c, Env(slot), reg, slot, reg, slot + 1);
  }

  // ---- the allocator ------------------------------------------------------------

  // What collection guarantees: parameters and block-level functions of a unit are
  // among its declarations, and no module binding is listed twice.
  ghost predicate WellPlanned(u: UnitPlan, homes: Homes) {
    && (forall i, j :: 0 <= i < j < |u.seeded| && u.seeded[i].Some? ==> u.seeded[i] != u.seeded[j])
    && (forall i :: 0 <= i < |u.formals| && u.formals[i].Some? && IsHome(homes, u.formals[i].value, u.index) ==>
        u.formals[i].value in u.decls)
    && (u.rest.Some? && IsHome(homes, u.rest.value, u.index) ==> u.rest.value in u.decls)
    && (forall i :: 0 <= i < |u.blocks| ==> u.blocks[i] in u.decls && IsHome(homes, u.blocks[i], u.index))
  }

  predicate InEnv(u: UnitPlan, captured: set<Sym>, sym: Sym) { sym in captured || u.evalReachable }

  predicate IsHome(homes: Homes, sym: Sym, index: nat) { sym in homes && homes[sym] == index }

  // ---- where a binding belongs ------------------------------------------------

  // The incoming register of the last of the first n formals called sym.
  function LastFormal(u: UnitPlan, sym: Sym, n: nat): Option<nat> {
    if n == 0 then None
    else if n - 1 < |u.formals| && u.formals[n - 1] == Some(sym) then Some(n) else LastFormal(u, sym, n - 1)
  }

  // The register the caller passes sym in; the rest parameter comes behind the formals.
  function Incoming(u: UnitPlan, sym: Sym): Option<nat> {
    if u.hasRest && u.rest == Some(sym) then Some(u.arity + 1) else LastFormal(u, sym, u.arity)
  }

  // The slot the linker gave sym, if it is one of the first n module bindings.
  function SeedIn(seeded: seq<Option<Sym>>, sym: Sym, n: nat): Option<nat>
    requires n <= |seeded|
  {
    if n == 0 then None else if seeded[n - 1] == Some(sym) then Some(n - 1) else SeedIn(seeded, sym, n - 1)
  }

  function SeedOf(u: UnitPlan, sym: Sym): Option<nat> {
    if u.index == 0 && u.isModule then SeedIn(u.seeded, sym, |u.seeded|) else None
  }

  predicate GlobalHere(u: UnitPlan, sym: Sym) { u.index == 0 && !u.isModule && sym in u.globals }

  // A fresh slot, a fresh register, or a cell that is determined.
  datatype Place = Nowhere | AnySlot | AnyRegister | At(cell: Loc)

  function PlaceOf(u: UnitPlan, homes: Homes, captured: set<Sym>, sym: Sym): Place {
    var at := if IsHome(homes, sym, u.index) then Incoming(u, sym) else None;
    if at.Some? then (if InEnv(u, captured, sym) then AnySlot else At(Reg(at.value)))
    else if SeedOf(u, sym).Some? then At(Env(SeedOf(u, sym).value))
    else if sym !in u.decls || !IsHome(homes, sym, u.index) then Nowhere
    else if GlobalHere(u, sym) then At(Global)
    else if InEnv(u, captured, sym) then AnySlot else AnyRegister
  }

  predicate Sits(p: Place, cell: Option<Loc>) {
    match p
    case Nowhere => cell.None?
    case AnySlot => cell.Some? && cell.value.Env?
    case AnyRegister => cell.Some? && cell.value.Reg?
    case At(c) => cell == Some(c)
  }

  // A lexical binding of the body, which is neither passed in nor linked nor global.
  predicate Flagged(u: UnitPlan, homes: Homes, sym: Sym) {
    && sym in u.lexical && sym in u.decls && IsHome(homes, sym, u.index)
    && Incoming(u, sym).None? && SeedOf(u, sym).None? && !GlobalHere(u, sym)
  }

  ghost predicate NeedsEnv(u: UnitPlan, homes: Homes, captured: set<Sym>) {
    || (exists i :: 0 <= i < |u.decls| && u.decls[i] in captured && IsHome(homes, u.decls[i], u.index))
    || u.needsThis || u.needsNewTarget || u.evalReachable || (u.index == 0 && u.isModule)
  }

  // Everything that needs a cell has one of its kind, and nothing else has.
  ghost predicate Complete(u: UnitPlan, homes: Homes, captured: set<Sym>, l: Layout) {
    && (forall sym :: Sits(PlaceOf(u, homes, captured, sym), CellOf(l, Value(sym))))
    && (forall sym :: sym in l.flags <==> Flagged(u, homes, sym))
    && |l.blocks| == |u.blocks|
    && (forall i :: 0 <= i < |u.blocks| ==> (l.blocks[i].Env? <==> InEnv(u, captured, u.blocks[i])))
    && (l.thisSlot.Some? <==> u.needsThis) && (l.newTargetSlot.Some? <==> u.needsNewTarget)
    && (l.hasEnv <==> NeedsEnv(u, homes, captured))
  }

  // The window gives sym the register or slot it is passed in, and leaves others alone.
  ghost predicate Passed(u: UnitPlan, homes: Homes, captured: set<Sym>, l0: Layout, l: Layout, sym: Sym,
                         at: Option<nat>)
  {
    if at.Some? && IsHome(homes, sym, u.index)
    then sym in l.vars && if InEnv(u, captured, sym) then l.vars[sym].Env? else l.vars[sym] == Reg(at.value)
    else CellOf(l, Value(sym)) == CellOf(l0, Value(sym))
  }

  lemma PassedNone(u: UnitPlan, homes: Homes, captured: set<Sym>, l: Layout, sym: Sym)
    ensures Passed(u, homes, captured, l, l, sym, None)
  {
  }

  lemma PassedOn(u: UnitPlan, homes: Homes, captured: set<Sym>, l0: Layout, l: Layout, l': Layout, x: Option<Sym>,
                 cell: Loc, r: nat, sym: Sym, before: Option<nat>)
    requires Passed(u, homes, captured, l0, l, sym, before)
    requires if x.Some? && IsHome(homes, x.value, u.index)
             then l' == l.(vars := l.vars[x.value := cell])
                  && (if InEnv(u, captured, x.value) then cell.Env? else cell == Reg(r))
             else l' == l
    ensures Passed(u, homes, captured, l0, l', sym, if x == Some(sym) then Some(r) else before)
  {
  }

  // What the first n declarations add.
  ghost predicate Declares(u: UnitPlan, homes: Homes, captured: set<Sym>, l0: Layout, l: Layout, sym: Sym, n: nat)
    requires n <= |u.decls|
  {
    if sym in l0.vars then sym in l.vars && l.vars[sym] == l0.vars[sym] && sym !in l.flags
    else if sym !in u.decls[..n] || !IsHome(homes, sym, u.index) then sym !in l.vars && sym !in l.flags
    else if GlobalHere(u, sym) then sym in l.vars && l.vars[sym].Global? && sym !in l.flags
    else
      && sym in l.vars && (sym in l.flags <==> sym in u.lexical)
      && if InEnv(u, captured, sym) then l.vars[sym].Env? else l.vars[sym].Reg?
  }

  lemma DeclaresNone(u: UnitPlan, homes: Homes, captured: set<Sym>, l: Layout, sym: Sym)
    requires l.flags == map[]
    ensures Declares(u, homes, captured, l, l, sym, 0)
  {
  }

  lemma DeclaresOn(u: UnitPlan, homes: Homes, captured: set<Sym>, l0: Layout, l: Layout, l': Layout, sym: Sym, i: nat)
    requires i < |u.decls| && Declares(u, homes, captured, l0, l, sym, i)
    requires var x := u.decls[i];
             if x in l.vars || !IsHome(homes, x, u.index) then l' == l
             else if GlobalHere(u, x) then l' == l.(vars := l.vars[x := Global])
             else
               && x in l'.vars && l'.vars == l.vars[x := l'.vars[x]]
               && (if InEnv(u, captured, x) then l'.vars[x].Env? else l'.vars[x].Reg?)
               && forall s :: s in l'.flags <==> s in l.flags || (s == x && x in u.lexical)
    ensures Declares(u, homes, captured, l0, l', sym, i + 1)
  {
    assert u.decls[..i + 1] == u.decls[..i] + [u.decls[i]];
  }

  // Module bindings keep the slots the linker gave them.
  method Seed(u: UnitPlan, captured: set<Sym>) returns (l: Layout, slot: nat, ok: bool)
    requires forall i, j :: 0 <= i < j < |u.seeded| && u.seeded[i].Some? ==> u.seeded[i] != u.seeded[j]
    ensures ok ==>
              Sound(l, u, captured, 1, slot) && l.flags == map[] && l.blocks == [] && l.thisSlot.None?
              && l.newTargetSlot.None?
    ensures ok ==> (forall sym :: sym in l.vars ==> l.vars[sym].Env? && u.isModule && u.index == 0)
    ensures ok ==> forall sym :: var k := SeedOf(u, sym);
                     CellOf(l, Value(sym)) == if k.Some? then Some(Env(k.value)) else None
    ensures if ok then slot <= |u.seeded| else |u.seeded| > MAX_ENV_SLOTS
  {
    l := Layout(map[], map[], [], None, None, false, 0, 0);
    slot, ok := 0, true;
    if !(u.index == 0 && u.isModule) { return; }
    for i := 0 to |u.seeded|
      invariant slot == i && ok && Sound(l, u, captured, 1, slot) && l.flags == map[] && l.blocks == []
                && l.thisSlot.None? && l.newTargetSlot.None?
      invariant forall sym :: sym in l.vars ==> l.vars[sym].Env?
      invariant forall sym :: var k := SeedIn(u.seeded, sym, i);
                  CellOf(l, Value(sym)) == if k.Some? then Some(Env(k.value)) else None
    {
      if slot + 1 > MAX_ENV_SLOTS { return l, slot, false; }
      if u.seeded[i].Some? {
        AddValue(l, u, captured, u.seeded[i].value, Env(slot), 1, slot, 1, slot + 1);
        l := l.(vars := l.vars[u.seeded[i].value := Env(slot)]);
      } else {
        Grow(l, u, captured, 1, slot, 1, slot + 1);
      }
      slot := slot + 1;
    }
  }

  // Formals and the rest parameter: their incoming registers are reserved whoever
  // owns them.
  method Window(u: UnitPlan, homes: Homes, captured: set<Sym>, l0: Layout, slot0: nat)
    returns (l: Layout, reg: nat, slot: nat, ok: bool)
    requires WellPlanned(u, homes) && Sound(l0, u, captured, 1, slot0) && l0.flags == map[] && l0.blocks == []
    ensures ok ==>
              Sound(l, u, captured, reg, slot) && u.arity < reg && l.flags == map[] && l.blocks == [] && slot0 <= slot
    ensures l.thisSlot == l0.thisSlot && l.newTargetSlot == l0.newTargetSlot
    ensures ok ==>
              forall sym :: sym in l.vars && sym !in l0.vars ==>
                (l.vars[sym].Env? ==> InEnv(u, captured, sym)) && IsHome(homes, sym, u.index) && sym in u.decls
    ensures ok ==> forall sym :: sym in l0.vars ==> sym in l.vars
    ensures ok ==> forall sym :: Passed(u, homes, captured, l0, l, sym, Incoming(u, sym))
    ensures if ok then reg <= u.arity + 2 && slot <= slot0 + u.arity + 1
            else u.arity + 2 > MAX_REGS || slot0 + u.arity + 1 > MAX_ENV_SLOTS
  {
    hide Sound; hide Passed;
    forall s ensures Passed(u, homes, captured, l0, l0, s, None) { PassedNone(u, homes, captured, l0, s); }
    l, reg, slot, ok := l0, 1, slot0, true;
    for i := 0 to u.arity
      invariant ok && reg == i + 1 && slot0 <= slot <= slot0 + i && Sound(l, u, captured, reg, slot) && l.flags == map[]
                && l.blocks == []
      invariant l.thisSlot == l0.thisSlot && l.newTargetSlot == l0.newTargetSlot
      invariant forall sym :: sym in l.vars && sym !in l0.vars ==>
                  (l.vars[sym].Env? ==> InEnv(u, captured, sym)) && IsHome(homes, sym, u.index) && sym in u.decls
      invariant forall sym :: sym in l0.vars ==> sym in l.vars
      invariant forall sym :: Passed(u, homes, captured, l0, l, sym, LastFormal(u, sym, i))
    {
      if reg + 1 > MAX_REGS { ok := false; return; }
      SoundBounds(l, u, captured, reg, slot);
      var sym := if i < |u.formals| then u.formals[i] else None;
      ghost var was := l;
      if sym.None? || !IsHome(homes, sym.value, u.index) {
        Grow(l, u, captured, reg, slot, reg + 1, slot);
      } else if InEnv(u, captured, sym.value) {
        if slot + 1 > MAX_ENV_SLOTS { ok := false; return; }
        AddValue(l, u, captured, sym.value, Env(slot), reg, slot, reg + 1, slot + 1);
        l := l.(vars := l.vars[sym.value := Env(slot)]);
        slot := slot + 1;
      } else {
        AddValue(l, u, captured, sym.value, Reg(reg), reg, slot, reg + 1, slot);
        l := l.(vars := l.vars[sym.value := Reg(reg)]);
      }
      reg := reg + 1;
      ghost var cell := if sym.Some? && sym.value in l.vars then l.vars[sym.value] else Global;
      ghost var next := i + 1;
      forall s ensures Passed(u, homes, captured, l0, l, s, LastFormal(u, s, next)) {
        PassedOn(u, homes, captured, l0, was, l, sym, cell, i + 1, s, LastFormal(u, s, i));
      }
    }
    ghost var was := l;
    if u.hasRest {
      if reg + 1 > MAX_REGS { ok := false; return; }
      SoundBounds(l, u, captured, reg, slot);
      if u.rest.None? || !IsHome(homes, u.rest.value, u.index) {
        Grow(l, u, captured, reg, slot, reg + 1, slot);
      } else if InEnv(u, captured, u.rest.value) {
        if slot + 1 > MAX_ENV_SLOTS { ok := false; return; }
        AddValue(l, u, captured, u.rest.value, Env(slot), reg, slot, reg + 1, slot + 1);
        l := l.(vars := l.vars[u.rest.value := Env(slot)]);
        slot := slot + 1;
      } else {
        AddValue(l, u, captured, u.rest.value, Reg(reg), reg, slot, reg + 1, slot);
        l := l.(vars := l.vars[u.rest.value := Reg(reg)]);
      }
      reg := reg + 1;
      ghost var cell := if u.rest.Some? && u.rest.value in l.vars then l.vars[u.rest.value] else Global;
      forall s ensures Passed(u, homes, captured, l0, l, s, Incoming(u, s)) {
        PassedOn(u, homes, captured, l0, was, l, u.rest, cell, u.arity + 1, s, LastFormal(u, s, u.arity));
      }
    }
  }

  lemma SoundBounds(l: Layout, u: UnitPlan, captured: set<Sym>, reg: nat, slot: nat)
    requires Sound(l, u, captured, reg, slot)
    ensures reg <= MAX_REGS && slot <= MAX_ENV_SLOTS
  {
    hide Injective; hide FormalsOwn; hide Classes;
  }

  // Everything else, in declaration order; a lexical binding's flag follows its value.
  method Declarations(u: UnitPlan, homes: Homes, captured: set<Sym>, l0: Layout, reg0: nat, slot0: nat)
    returns (l: Layout, reg: nat, slot: nat, ok: bool)
    requires Sound(l0, u, captured, reg0, slot0) && u.arity < reg0 && l0.flags == map[] && l0.blocks == []
    ensures ok ==> Sound(l, u, captured, reg, slot) && u.arity < reg && l.blocks == [] && reg0 <= reg && slot0 <= slot
    ensures l.thisSlot == l0.thisSlot && l.newTargetSlot == l0.newTargetSlot
    ensures ok ==>
              forall sym :: sym in l.vars && sym !in l0.vars ==>
                (l.vars[sym].Env? ==> InEnv(u, captured, sym) && sym in u.decls) && IsHome(homes, sym, u.index)
    ensures ok ==> forall sym :: sym in l0.vars ==> sym in l.vars && l.vars[sym] == l0.vars[sym]
    ensures ok ==> forall i :: 0 <= i < |u.decls| && IsHome(homes, u.decls[i], u.index) ==> u.decls[i] in l.vars
    ensures ok ==> forall sym :: Declares(u, homes, captured, l0, l, sym, |u.decls|)
    ensures if ok then reg <= reg0 + 2 * |u.decls| && slot <= slot0 + 2 * |u.decls|
            else reg0 + 2 * |u.decls| > MAX_REGS || slot0 + 2 * |u.decls| > MAX_ENV_SLOTS
  {
    hide Sound; hide Declares;
    forall s ensures Declares(u, homes, captured, l0, l0, s, 0) { DeclaresNone(u, homes, captured, l0, s); }
    l, reg, slot, ok := l0, reg0, slot0, true;
    for i := 0 to |u.decls|
      invariant ok && u.arity < reg && reg0 <= reg <= reg0 + 2 * i && slot0 <= slot <= slot0 + 2 * i
      invariant Sound(l, u, captured, reg, slot) && l.blocks == []
      invariant l.thisSlot == l0.thisSlot && l.newTargetSlot == l0.newTargetSlot
      invariant forall sym :: sym in l.flags ==> sym in l.vars
      invariant forall sym :: sym in l.vars && sym !in l0.vars ==>
                  (l.vars[sym].Env? ==> InEnv(u, captured, sym) && sym in u.decls) && IsHome(homes, sym, u.index)
      invariant forall sym :: sym in l0.vars ==> sym in l.vars && l.vars[sym] == l0.vars[sym]
      invariant forall j :: 0 <= j < i && IsHome(homes, u.decls[j], u.index) ==> u.decls[j] in l.vars
      invariant forall sym :: Declares(u, homes, captured, l0, l, sym, i)
    {
      var sym := u.decls[i];
      ghost var was, next := l, i + 1;
      if sym in l.vars || !IsHome(homes, sym, u.index) {
        forall s ensures Declares(u, homes, captured, l0, l, s, next) {
          DeclaresOn(u, homes, captured, l0, was, l, s, i);
        }
        continue;
      }
      SoundBounds(l, u, captured, reg, slot);
      if u.index == 0 && !u.isModule && sym in u.globals {
        AddValue(l, u, captured, sym, Global, reg, slot, reg, slot);
        l := l.(vars := l.vars[sym := Global]);
        forall s ensures Declares(u, homes, captured, l0, l, s, next) {
          DeclaresOn(u, homes, captured, l0, was, l, s, i);
        }
        continue;
      }
      var cell := if InEnv(u, captured, sym) then Env(slot) else Reg(reg);
      l, reg, slot, ok := Claimed(u, captured, l, sym, cell, reg, slot);
      if !ok { return; }
      forall s ensures Declares(u, homes, captured, l0, l, s, next) {
        DeclaresOn(u, homes, captured, l0, was, l, s, i);
      }
    }
  }

  // A value cell and, for a lexical binding, the flag cell behind it.
  method Claimed(u: UnitPlan, captured: set<Sym>, l0: Layout, sym: Sym, cell: Loc, reg0: nat, slot0: nat)
    returns (l: Layout, reg: nat, slot: nat, ok: bool)
    requires Sound(l0, u, captured, reg0, slot0) && u.arity < reg0 && sym !in l0.flags
    requires cell == if InEnv(u, captured, sym) then Env(slot0) else Reg(reg0)
    ensures l == l0.(vars := l0.vars[sym := cell], flags := l.flags) && reg0 <= reg && slot0 <= slot
    ensures ok ==> Sound(l, u, captured, reg, slot)
    ensures ok ==> (forall s :: s in l.flags <==> s in l0.flags || (s == sym && sym in u.lexical))
    ensures if ok then reg <= reg0 + 2 && slot <= slot0 + 2 else reg0 + 2 > MAX_REGS || slot0 + 2 > MAX_ENV_SLOTS
  {
    hide Sound;
    SoundBounds(l0, u, captured, reg0, slot0);
    l, reg, slot, ok := l0.(vars := l0.vars[sym := cell]), reg0, slot0, false;
    if cell.Env? {
      if slot + 1 > MAX_ENV_SLOTS { return; }
      AddValue(l0, u, captured, sym, cell, reg, slot, reg, slot + 1);
      slot := slot + 1;
      if sym in u.lexical {
        if slot + 1 > MAX_ENV_SLOTS { return; }
        AddFlag(l, u, captured, sym, Env(slot), reg, slot, reg, slot + 1);
        l := l.(flags := l.flags[sym := Env(slot)]);
        slot := slot + 1;
      }
    } else {
      if reg + 1 > MAX_REGS { return; }
      AddValue(l0, u, captured, sym, cell, reg, slot, reg + 1, slot);
      reg := reg + 1;
      if sym in u.lexical {
        if reg + 1 > MAX_REGS { return; }
        AddFlag(l, u, captured, sym, Reg(reg), reg, slot, reg + 1, slot);
        l := l.(flags := l.flags[sym := Reg(reg)]);
        reg := reg + 1;
      }
    }
    ok := true;
  }

  // Block-level functions, then the synthetic cells.
  method Trailing(u: UnitPlan, captured: set<Sym>, hasEnv: bool, l0: Layout, reg0: nat, slot0: nat)
    returns (l: Layout, ok: bool)
    requires Sound(l0, u, captured, reg0, slot0) && u.arity < reg0 && l0.blocks == [] && l0.thisSlot.None?
             && l0.newTargetSlot.None?
    ensures ok ==>
              Sound(l, u, captured, l.localsEnd, l.slots) && u.arity < l.localsEnd < MAX_REGS && l.slots < MAX_ENV_SLOTS
    ensures ok ==> l.vars == l0.vars && l.flags == l0.flags && |l.blocks| == |u.blocks| && l.hasEnv == hasEnv
    ensures ok ==>
              (l.thisSlot.Some? <==> u.needsThis && hasEnv) && (l.newTargetSlot.Some? <==> u.needsNewTarget && hasEnv)
    ensures ok ==> forall i :: 0 <= i < |u.blocks| ==> (l.blocks[i].Env? <==> InEnv(u, captured, u.blocks[i]))
    ensures !ok ==> reg0 + |u.blocks| >= MAX_REGS || slot0 + |u.blocks| + 2 >= MAX_ENV_SLOTS
  {
    hide Sound;
    var reg: nat, slot: nat := reg0, slot0;
    l, ok := l0, false;
    for i := 0 to |u.blocks|
      invariant l == l0.(blocks := l.blocks) && |l.blocks| == i && u.arity < reg <= reg0 + i && slot <= slot0 + i
      invariant Sound(l, u, captured, reg, slot)
      invariant forall j :: 0 <= j < i ==> (l.blocks[j].Env? <==> InEnv(u, captured, u.blocks[j]))
      invariant !ok
    {
      SoundBounds(l, u, captured, reg, slot);
      if InEnv(u, captured, u.blocks[i]) {
        if slot + 1 > MAX_ENV_SLOTS { return; }
        AddBlock(l, u, captured, Env(slot), reg, slot, reg, slot + 1);
        l := l.(blocks := l.blocks + [Env(slot)]);
        slot := slot + 1;
      } else {
        if reg + 1 > MAX_REGS { return; }
        AddBlock(l, u, captured, Reg(reg), reg, slot, reg + 1, slot);
        l := l.(blocks := l.blocks + [Reg(reg)]);
        reg := reg + 1;
      }
    }
    SoundBounds(l, u, captured, reg, slot);
    if u.needsThis && hasEnv {
      if slot + 1 > MAX_ENV_SLOTS { return; }
      AddSynthetic(l, l.(thisSlot := Some(slot)), This, u, captured, reg, slot);
      l := l.(thisSlot := Some(slot));
      slot := slot + 1;
    }
    if u.needsNewTarget && hasEnv {
      if slot + 1 > MAX_ENV_SLOTS { return; }
      AddSynthetic(l, l.(newTargetSlot := Some(slot)), NewTarget, u, captured, reg, slot);
      l := l.(newTargetSlot := Some(slot));
      slot := slot + 1;
    }
    SameCells(l, l.(hasEnv := hasEnv, slots := slot, localsEnd := reg), u, captured, reg, slot);
    l := l.(hasEnv := hasEnv, slots := slot, localsEnd := reg);
    ok := reg < MAX_REGS && slot < MAX_ENV_SLOTS;
  }

  lemma SameCells(l: Layout, l': Layout, u: UnitPlan, captured: set<Sym>, reg: nat, slot: nat)
    requires Sound(l, u, captured, reg, slot)
    requires l' == l.(hasEnv := l'.hasEnv, slots := l'.slots, localsEnd := l'.localsEnd)
    ensures Sound(l', u, captured, reg, slot)
  {
    forall c ensures CellOf(l', c) == CellOf(l, c) { }
  }

  // ---- a unit ---------------------------------------------------------------

  method HasEnv(u: UnitPlan, homes: Homes, captured: set<Sym>) returns (r: bool)
    ensures r <==> NeedsEnv(u, homes, captured)
  {
    r := u.needsThis || u.needsNewTarget || u.evalReachable || (u.index == 0 && u.isModule);
    for i := 0 to |u.decls|
      invariant r <==> (exists j :: 0 <= j < i && u.decls[j] in captured && IsHome(homes, u.decls[j], u.index))
                       || u.needsThis || u.needsNewTarget || u.evalReachable || (u.index == 0 && u.isModule)
    {
      if u.decls[i] in captured && IsHome(homes, u.decls[i], u.index) { r := true; }
    }
  }

  // A layout of unit u: all value, flag, block, `this` and `new.target` cells are
  // pairwise distinct; registers lie in 1 .. localsEnd and slots in 0 .. slots, both
  // short of their limits; formal i owns register i + 1 or nobody does; a captured
  // binding is never in a register, and a flag is in its value's storage class; every
  // declaration has a cell; a unit that holds an environment cell has an environment; and
  // every binding, flag, block-level function and synthetic value is where it belongs.
  ghost predicate LaidOut(u: UnitPlan, homes: Homes, captured: set<Sym>, l: Layout) {
    && Injective(l, l.localsEnd, l.slots) && l.localsEnd < MAX_REGS && l.slots < MAX_ENV_SLOTS && u.arity < l.localsEnd
    && FormalsOwn(l, u) && Classes(l, u, captured) && Complete(u, homes, captured, l)
    && (forall i :: 0 <= i < |u.decls| && IsHome(homes, u.decls[i], u.index) ==> u.decls[i] in l.vars)
    && (forall c :: CellOf(l, c).Some? && CellOf(l, c).value.Env? ==> l.hasEnv)
  }

  // What a unit can ask for at most stays short of the limits.
  predicate Fits(u: UnitPlan) {
    && u.arity + 2 + 2 * |u.decls| + |u.blocks| < MAX_REGS
    && |u.seeded| + u.arity + 1 + 2 * |u.decls| + |u.blocks| + 2 < MAX_ENV_SLOTS
  }

  method LayOut(u: UnitPlan, homes: Homes, captured: set<Sym>) returns (r: Option<Layout>)
    requires WellPlanned(u, homes)
    ensures r.Some? ==> LaidOut(u, homes, captured, r.value)
    ensures Fits(u) ==> r.Some?
  {
    hide Injective; hide FormalsOwn; hide Classes;
    var hasEnv := HasEnv(u, homes, captured);
    var l, slot, ok := Seed(u, captured);
    if !ok { return None; }
    ghost var l0 := l;
    var reg;
    l, reg, slot, ok := Window(u, homes, captured, l, slot);
    if !ok { return None; }
    ghost var l1 := l;
    l, reg, slot, ok := Declarations(u, homes, captured, l, reg, slot);
    if !ok { return None; }
    ghost var l2 := l;
    l, ok := Trailing(u, captured, hasEnv, l, reg, slot);
    if !ok { return None; }
    r := Some(l);
    forall sym ensures Sits(PlaceOf(u, homes, captured, sym), CellOf(l, Value(sym))) {
      Settled(u, homes, captured, l0, l1, l2, sym);
    }
    forall sym ensures sym in l.flags <==> Flagged(u, homes, sym) { Settled(u, homes, captured, l0, l1, l2, sym); }
    forall c | CellOf(l, c).Some? && CellOf(l, c).value.Env? ensures l.hasEnv {
      EnvNeedsOne(u, homes, captured, l0, l1, l2, l, c);
    }
  }

  // Linked, passed in and declared: the three steps put every binding where it belongs.
  lemma Settled(u: UnitPlan, homes: Homes, captured: set<Sym>, l0: Layout, l1: Layout, l: Layout, sym: Sym)
    requires CellOf(l0, Value(sym)) == if SeedOf(u, sym).Some? then Some(Env(SeedOf(u, sym).value)) else None
    requires Passed(u, homes, captured, l0, l1, sym, Incoming(u, sym))
    requires Declares(u, homes, captured, l1, l, sym, |u.decls|)
    ensures Sits(PlaceOf(u, homes, captured, sym), CellOf(l, Value(sym)))
    ensures sym in l.flags <==> Flagged(u, homes, sym)
  {
    hide LastFormal; hide SeedIn; hide Incoming; hide SeedOf;
    assert u.decls[..|u.decls|] == u.decls;
  }

  lemma EnvNeedsOne(u: UnitPlan, homes: Homes, captured: set<Sym>, l0: Layout, l1: Layout, l2: Layout, l: Layout,
                    c: Claim)
    requires WellPlanned(u, homes) && CellOf(l, c).Some? && CellOf(l, c).value.Env? && Classes(l, u, captured)
    requires l.vars == l2.vars && l.flags == l2.flags && |l.blocks| == |u.blocks|
    requires (l.thisSlot.Some? ==> l.hasEnv) && (l.newTargetSlot.Some? ==> l.hasEnv)
    requires forall sym :: sym in l0.vars ==> u.isModule && u.index == 0
    requires forall sym :: sym in l1.vars && sym !in l0.vars ==>
               (l1.vars[sym].Env? ==> InEnv(u, captured, sym)) && IsHome(homes, sym, u.index)
    requires forall sym :: sym in l2.vars && sym !in l1.vars ==>
               (l2.vars[sym].Env? ==> InEnv(u, captured, sym) && sym in u.decls) && IsHome(homes, sym, u.index)
    requires forall sym :: sym in l1.vars ==> sym in l2.vars && l2.vars[sym] == l1.vars[sym]
    requires forall i :: 0 <= i < |u.decls| && IsHome(homes, u.decls[i], u.index) ==> u.decls[i] in l.vars
    requires forall sym :: sym in l1.vars && sym !in l0.vars && l1.vars[sym].Env? ==> sym in u.decls
    requires forall i :: 0 <= i < |u.blocks| && l.blocks[i].Env? ==> InEnv(u, captured, u.blocks[i])
    requires l.hasEnv <==> NeedsEnv(u, homes, captured)
    ensures l.hasEnv
  {
    if c.Value? || c.FlagOf? || c.Block? {
      var sym := if c.Block? then u.blocks[c.i] else c.sym;
      if !(u.index == 0 && u.isModule) && !u.evalReachable {
        assert sym in captured && sym in u.decls && IsHome(homes, sym, u.index);
        var i :| 0 <= i < |u.decls| && u.decls[i] == sym;
      }
    }
  }

  // ---- the whole program --------------------------------------------------------

  // What collection guarantees: units are numbered in order, and a symbol's home unit
  // declares it.
  ghost predicate Collected(units: seq<UnitPlan>, homes: Homes) {
    && (forall i :: 0 <= i < |units| ==> units[i].index == i && WellPlanned(units[i], homes))
    && (forall sym :: sym in homes ==> homes[sym] < |units| && sym in units[homes[sym]].decls)
  }

  // Where a reference to sym is directed (crates/v12-bccompiler/src/model.rs:982-998).
  function Access(ls: seq<Layout>, homes: Homes, sym: Sym): Loc {
    if sym !in homes || homes[sym] >= |ls| || sym !in ls[homes[sym]].vars then Reg(0) else ls[homes[sym]].vars[sym]
  }

  // A recorded reference finds its symbol: in a register only from the symbol's own
  // unit, and in an environment slot only if that unit has an environment.  The same
  // goes for the symbol's flag.
  ghost predicate SiteOk(ls: seq<Layout>, homes: Homes, sym: Sym, from: nat)
    requires sym in homes
  {
    var (home, loc) := (homes[sym], Access(ls, homes, sym));
    && home < |ls| && sym in ls[home].vars
    && (loc.Reg? ==> from == home && 1 <= loc.r < ls[home].localsEnd)
    && (loc.Env? ==> ls[home].hasEnv && loc.s < ls[home].slots)
    && (sym in ls[home].flags ==>
        (ls[home].flags[sym].Reg? ==> from == home) && (ls[home].flags[sym].Env? ==> ls[home].hasEnv))
  }

  // No two symbols of a unit share a cell.
  ghost predicate CellsApart(ls: seq<Layout>, homes: Homes) {
    forall x, y :: x in homes && y in homes && Shared(ls, homes, x, y) ==> x == y
  }

  predicate Shared(ls: seq<Layout>, homes: Homes, x: Sym, y: Sym)
    requires x in homes && y in homes
  {
    homes[x] == homes[y] && Access(ls, homes, x) == Access(ls, homes, y) && !Access(ls, homes, x).Global?
  }

  // Captures first, then every unit in order.  Afterwards every recorded reference to a
  // symbol with a home finds it, and no two symbols of a unit share a cell.
  method Finalize(units: seq<UnitPlan>, homes: Homes, sites: seq<(Sym, nat)>) returns (r: Option<seq<Layout>>)
    requires Collected(units, homes)
    ensures r.Some? ==> |r.value| == |units|
    ensures r.Some? ==>
              forall i :: 0 <= i < |sites| && sites[i].0 in homes ==> SiteOk(r.value, homes, sites[i].0, sites[i].1)
    ensures r.Some? ==> CellsApart(r.value, homes)
    ensures (forall i :: 0 <= i < |units| ==> Fits(units[i])) ==> r.Some?
  {
    hide LaidOut; hide WellPlanned; hide Fits;
    var captured := Captures(sites, homes);
    var ls := [];
    for i := 0 to |units|
      invariant |ls| == i && forall j :: 0 <= j < i ==> LaidOut(units[j], homes, captured, ls[j])
    {
      var l := LayOut(units[i], homes, captured);
      if l.None? { return None; }
      ls := ls + [l.value];
    }
    r := Some(ls);
    forall i | 0 <= i < |sites| && sites[i].0 in homes ensures SiteOk(ls, homes, sites[i].0, sites[i].1) {
      CaptureSound(units, homes, sites, captured, ls, i);
    }
    forall x, y | x in homes && y in homes && Shared(ls, homes, x, y) ensures x == y {
      Apart(units, homes, captured, ls, x, y);
    }
  }

  lemma CaptureSound(units: seq<UnitPlan>, homes: Homes, sites: seq<(Sym, nat)>, captured: set<Sym>, ls: seq<Layout>,
                     i: nat)
    requires Collected(units, homes) && |ls| == |units|
             && forall j :: 0 <= j < |ls| ==> LaidOut(units[j], homes, captured, ls[j])
    requires (forall sym :: sym in captured <==> Escapes(sites, homes, sym)) && i < |sites| && sites[i].0 in homes
    ensures SiteOk(ls, homes, sites[i].0, sites[i].1)
  {
    hide FormalsOwn; hide WellPlanned;
    var (sym, from) := sites[i];
    var home := homes[sym];
    var k :| 0 <= k < |units[home].decls| && units[home].decls[k] == sym;
    assert LaidOut(units[home], homes, captured, ls[home]) && IsHome(homes, sym, units[home].index);
    var loc := ls[home].vars[sym];
    assert CellOf(ls[home], Value(sym)) == Some(loc);
    assert InRange(CellOf(ls[home], Value(sym)), ls[home].localsEnd, ls[home].slots);
    assert sym in ls[home].flags ==> CellOf(ls[home], FlagOf(sym)) == Some(ls[home].flags[sym]);
    if from != home { assert Escapes(sites, homes, sym); }
  }

  lemma Apart(units: seq<UnitPlan>, homes: Homes, captured: set<Sym>, ls: seq<Layout>, x: Sym, y: Sym)
    requires Collected(units, homes) && |ls| == |units|
             && forall j :: 0 <= j < |ls| ==> LaidOut(units[j], homes, captured, ls[j])
    requires x in homes && y in homes && Shared(ls, homes, x, y)
    ensures x == y
  {
    hide FormalsOwn; hide WellPlanned; hide Classes;
    var home := homes[x];
    var u := units[home];
    var i :| 0 <= i < |u.decls| && u.decls[i] == x;
    var j :| 0 <= j < |u.decls| && u.decls[j] == y;
    assert LaidOut(u, homes, captured, ls[home]) && IsHome(homes, x, u.index) && IsHome(homes, y, u.index);
    assert CellOf(ls[home], Value(x)) == CellOf(ls[home], Value(y));
  }
}
