/**
 The simulation behind folding and compaction.  The optimized machine executes a
 folded load where the original executes the first load of the triple, and waits
 during the second load and the arithmetic.
 */
module PeepholeFold {
  import opened Words
  import opened Machine
  import opened Assembly
  import opened Simulation
  import opened PeepholeSpec
  import opened PeepholeLayout
  import opened PeepholeSafe
  import opened PeepholeThread
  import opened PeepholeCompact

  // ---- folded registers -------------------------------------------------

  // The temporaries whose loads are folded away.
  ghost predicate FoldedReg(ws: Text, r: nat) {
    exists h :: 0 <= h < |ws| - 2 && Site(ws, h) && (r == ws[h].a || r == ws[h + 1].a)
  }

  ghost function FoldedRegs(ws: Text): set<nat> {
    set r: nat | r < 256 && FoldedReg(ws, r)
  }

  lemma SiteDisciplined(c: Code, h: nat)
    requires Clean(c.instrs) && Disciplined(c) && Site(c.instrs, h)
    ensures h + 2 < |c.instrs| && SingleUse(c, h + 2) && !Targeted(c, h + 1) && !Targeted(c, h + 2)
  {
    hide Walk;
    assert h + 2 < |c.instrs| && (Feeds(c.instrs, h, h + 1, h + 2) || Feeds(c.instrs, h + 1, h, h + 2)) by {
      SiteShape(c.instrs, h);
      assert Pattern(c.instrs, h);
    }
    assert NoEntry(c, h, h + 2);
  }

  // The operands of a folded arithmetic are the two loaded registers.
  lemma SiteOperands(ws: Text, h: nat)
    requires Clean(ws) && Site(ws, h)
    ensures h + 2 < |ws|
    ensures (ws[h + 2].b == ws[h].a && ws[h + 2].c == ws[h + 1].a)
            || (ws[h + 2].b == ws[h + 1].a && ws[h + 2].c == ws[h].a)
  {
    assert Pattern(ws, h);
  }

  // Nothing but the folded arithmetic itself reads a folded register.
  lemma ReadsNoFolded(c: Code, pc: nat)
    requires Clean(c.instrs) && Disciplined(c) && IsHead(c.instrs, true, pc)
    requires !Within(c.instrs, pc, 2)
    ensures forall r :: r in UsesAt(c.instrs, pc) ==> r !in FoldedRegs(c.instrs)
  {
    hide Walk; hide Site; hide Disciplined; hide UsesAt; hide Clean;
    var ws := c.instrs;
    forall r | r in UsesAt(ws, pc) ensures r !in FoldedRegs(ws) {
      if r in FoldedRegs(ws) {
        var h :| 0 <= h < |ws| - 2 && Site(ws, h) && (r == ws[h].a || r == ws[h + 1].a);
        SiteDisciplined(c, h);
        SiteOperands(ws, h);
      }
    }
  }

  // ---- the relation -----------------------------------------------------

  function Literal(w: Instr): Val { Num(Int(Sign8(w.c))) }

  // Control is inside the folded triple that starts d words earlier.
  predicate Within(ws: Text, pc: nat, d: nat) { pc >= d && Site(ws, pc - d) }

  ghost predicate RegsMatch(ws: Text, pc: nat, r0: Regs, r1: Regs) {
    var dead := FoldedRegs(ws);
    if Within(ws, pc, 1) then
      var h := pc - 1;
      h + 2 < |ws| && MidFold(ws, h, r0, r1) && Get(r0, ws[h].a) == Literal(ws[h])
    else if Within(ws, pc, 2) then
      var h := pc - 2;
      h + 2 < |ws| && MidFold(ws, h, r0, r1) && Get(r0, ws[h].a) == Literal(ws[h])
      && Get(r0, ws[h + 1].a) == Literal(ws[h + 1])
    else AgreeOutside(r0, r1, dead)
  }

  // The folded result is already there.
  ghost predicate MidFold(ws: Text, h: nat, r0: Regs, r1: Regs)
    requires h + 2 < |ws|
  {
    AgreeOutside(r0, r1, FoldedRegs(ws) + {ws[h + 2].a}) && Get(r1, ws[h + 2].a) == Num(Int(FoldValue(ws, h)))
  }

  ghost predicate Mapped(ws: Text, s: State, t: State, r: nat) {
    && Place(ws, s.pc) && t.pc == Index(ws, s.pc) && s.tr == t.tr
    && RegsMatch(ws, s.pc, s.regs, t.regs) && r == |ws| - s.pc
  }

  ghost function MappedBy(ws: Text): Matching { (s: State, t: State, r: nat) => Mapped(ws, s, t, r) }

  function CompactMachine(m: Machine): Machine {
    m.(code :=
       Code(Compacted(m.code.instrs, |m.code.instrs|), m.code.consts, MapHandlers(m.code.instrs, m.code.handlers)))
  }

  // ---- deleted words ----------------------------------------------------

  lemma OneWord(m: Machine, s: State)
    requires s.pc < |m.code.instrs| && Assigned(m.code.instrs[s.pc].op) && m.code.instrs[s.pc].op != WIDE
    ensures var w := m.code.instrs[s.pc];
            EffectAt(m, s) == Exec(m.code, m.host, Logical(w.op, w.a, w.b, w.c, 1, w, []), s.regs, s.tr)
    ensures WidthAt(m, s.pc) == 1
  {
    hide Exec;
  }

  // The two loads and the arithmetic of a triple, executed.
  lemma LoadStep(m: Machine, s: State)
    requires s.pc < |m.code.instrs| && m.code.instrs[s.pc].op == LOAD_INT
    ensures var w := m.code.instrs[s.pc];
            Step(m, s) == Running(State(s.pc + 1, s.regs[w.a := Literal(w)], s.tr))
  {
    hide EffectAt; hide WidthAt;
    OneWord(m, s);
  }

  lemma ArithStep(m: Machine, h: nat, s: State)
    requires h + 2 < |m.code.instrs| && s.pc == h + 2 && Clean(m.code.instrs) && Site(m.code.instrs, h)
    requires var ws := m.code.instrs;
             ws[h].a != ws[h + 1].a && Get(s.regs, ws[h].a) == Literal(ws[h])
             && Get(s.regs, ws[h + 1].a) == Literal(ws[h + 1])
    ensures var ws := m.code.instrs;
            Step(m, s) == Running(State(s.pc + 1, s.regs[ws[h + 2].a := Num(Int(FoldValue(ws, h)))], s.tr))
  {
    hide EffectAt; hide WidthAt; hide Walk;
    var ws := m.code.instrs;
    assert Pattern(ws, h) && ExactFold(ws, h);
    OneWord(m, s);
    FoldExact(ws, h);
  }

  // Folding is exact, up to the sign of zero: the machine's arithmetic on the two
  // literals gives the folded literal if and only if the guard holds.
  lemma FoldExact(ws: Text, h: nat)
    requires h + 2 < |ws| && IsFoldable(ws[h + 2].op) && (Direct(ws, h) || Swapped(ws, h)) && ws[h].a != ws[h + 1].a
    requires -128 <= FoldValue(ws, h) <= 127
    ensures var (x, y) := if Direct(ws, h) then (ws[h], ws[h + 1]) else (ws[h + 1], ws[h]);
            PureBinary(ws[h + 2].op, Literal(x), Literal(y)) == Some(Num(Int(FoldValue(ws, h)))) <==> ExactFold(ws, h)
    ensures Sign8(LiteralByte(FoldValue(ws, h))) == FoldValue(ws, h)
  {
    var (lx, ly) := (Sign8(ws[h].c), Sign8(ws[h + 1].c));
    assert -128 <= lx <= 127 && -128 <= ly <= 127;
  }

  // What register r holds after the two loads at h.
  function Loaded(ws: Text, h: nat, r: nat): Option<Val>
    requires h + 2 < |ws|
  {
    if r == ws[h + 1].a then Some(Literal(ws[h + 1])) else if r == ws[h].a then Some(Literal(ws[h])) else None
  }

  predicate FitsLiteral(v: Val) { v == Num(NegZero) || (v.Num? && v.n.Int? && -128 <= v.n.i <= 127) }

  // A triple is folded exactly when the machine's arithmetic on the two loaded registers
  // gives a literal, or the negative zero, a subtraction in order only.
  lemma FoldsWhen(ws: Text, h: nat)
    requires h + 2 < |ws| && ws[h].a != ws[h + 1].a
    ensures var w := ws[h + 2];
            var (l, r) := (Loaded(ws, h, w.b), Loaded(ws, h, w.c));
            Pattern(ws, h) <==>
            && h + 3 < |ws| && LoadIntAt(ws, h) && LoadIntAt(ws, h + 1) && IsHead(ws, false, h + 2) && IsFoldable(w.op)
            && l.Some? && r.Some? && w.b != w.c && (w.op == SUB ==> w.b == ws[h].a)
            && var v := PureBinary(w.op, l.value, r.value);
            && v.Some? && FitsLiteral(v.value)
  {
    hide IsHead; hide Times;
    if IsFoldable(ws[h + 2].op) && (Direct(ws, h) || Swapped(ws, h)) && -128 <= FoldValue(ws, h) <= 127 {
      FoldExact(ws, h);
    }
  }

  lemma DeadStep(m: Machine, s: State)
    requires Dead(m.code.instrs, s.pc)
    ensures Step(m, s) == Running(State(s.pc + 1, s.regs, s.tr))
  {
    hide EffectAt; hide WidthAt; hide Walk; hide FindHandler;
    OneWord(m, s);
  }

  lemma FoldGoesOn(ws: Text, h: nat, r0: Regs, r1: Regs)
    requires h + 2 < |ws| && Site(ws, h) && !Site(ws, h + 1) && ws[h].a != ws[h + 1].a && RegsMatch(ws, h + 1, r0, r1)
    ensures RegsMatch(ws, h + 2, r0[ws[h + 1].a := Literal(ws[h + 1])], r1)
  {
    hide Site; hide FoldedRegs;
    FoldedHere(ws, h);
    assert Within(ws, h + 1, 1) && Within(ws, h + 2, 2) && !Within(ws, h + 2, 1);
  }

  lemma FoldEnds(ws: Text, h: nat, r0: Regs, r1: Regs)
    requires h + 2 < |ws| && Site(ws, h) && !Site(ws, h + 1) && !Site(ws, h + 2) && RegsMatch(ws, h + 2, r0, r1)
    ensures RegsMatch(ws, h + 3, r0[ws[h + 2].a := Num(Int(FoldValue(ws, h)))], r1)
    ensures Get(r0, ws[h].a) == Literal(ws[h]) && Get(r0, ws[h + 1].a) == Literal(ws[h + 1])
  {
    hide Site; hide FoldedRegs;
    assert Within(ws, h + 2, 2) && !Within(ws, h + 2, 1);
    assert !Within(ws, h + 3, 1) && !Within(ws, h + 3, 2);
  }

  // The optimized machine waits at a deleted word.
  lemma DeletedFollows(m: Machine, s: State, t: State, r: nat)
    requires Stable(m.code) && Clean(m.code.instrs) && Mapped(m.code.instrs, s, t, r) && Deleted(m.code.instrs, s.pc)
    ensures Follows(m, CompactMachine(m), MappedBy(m.code.instrs), FoldedRegs(m.code.instrs), s, t, r)
  {
    hide Walk; hide Follows; hide Step; hide Disciplined; hide Shaped; hide Index; hide Deleted; hide Compacted;
    hide FoldedRegs; hide RegsMatch; hide Clean; hide Site;
    var ws := m.code.instrs;
    DeletedShape(ws, s.pc);
    NextPlace(ws, s.pc);
    IndexDeleted(ws, s.pc);
    if Within(ws, s.pc, 1) {
      var h := s.pc - 1;
      SiteShape(ws, h);
      SiteDisciplined(m.code, h); SiteOperands(ws, h);
      LoadStep(m, s);
      FoldGoesOn(ws, h, s.regs, t.regs);
    } else if Within(ws, s.pc, 2) {
      var h := s.pc - 2;
      SiteShape(ws, h);
      SiteDisciplined(m.code, h); SiteOperands(ws, h);
      FoldEnds(ws, h, s.regs, t.regs);
      ArithStep(m, h, s);
    } else {
      DeadOnly(ws, s.pc);
      DeadStep(m, s);
      OutsideMatch(ws, s.pc, s.pc + 1, s.regs, t.regs);
    }
    var s1 := Step(m, s).s;
    Waits(m, CompactMachine(m), MappedBy(ws), FoldedRegs(ws), s, s1, t, r, |ws| - s1.pc);
  }

  // A word deleted outside any triple is a dead branch, and no triple starts near it.
  lemma DeadOnly(ws: Text, k: nat)
    requires Deleted(ws, k) && !Within(ws, k, 1) && !Within(ws, k, 2)
    ensures Dead(ws, k) && !Within(ws, k + 1, 1) && !Within(ws, k + 1, 2)
  {
    hide Walk;
  }

  lemma OutsideMatch(ws: Text, pc: nat, pc': nat, r0: Regs, r1: Regs)
    requires !Within(ws, pc, 1) && !Within(ws, pc, 2) && !Within(ws, pc', 1) && !Within(ws, pc', 2)
    ensures RegsMatch(ws, pc, r0, r1) <==> RegsMatch(ws, pc', r0, r1)
  {
    hide Site;
  }

  lemma FoldedHere(ws: Text, h: nat)
    requires h + 2 < |ws| && Site(ws, h)
    ensures ws[h].a in FoldedRegs(ws) && ws[h + 1].a in FoldedRegs(ws)
  {
    hide Site;
  }

  // ---- kept words -------------------------------------------------------

  lemma SiteFollows(m: Machine, s: State, t: State, r: nat)
    requires Stable(m.code) && Clean(m.code.instrs) && Mapped(m.code.instrs, s, t, r) && Site(m.code.instrs, s.pc)
    ensures Follows(m, CompactMachine(m), MappedBy(m.code.instrs), FoldedRegs(m.code.instrs), s, t, r)
  {
    hide Walk; hide Follows; hide Step; hide Disciplined; hide Index; hide Deleted; hide FoldedRegs; hide Compacted;
    hide Site; hide Clean;
    hide TargetsOk; hide PayloadOk; hide HandlersOk;
    var ws := m.code.instrs;
    var m2 := CompactMachine(m);
    var h := s.pc;
    SiteShape(ws, h);
    SiteValue(ws, h);
    KeptWord(ws, h, 0);
    RemapShape(ws, FoldWord(ws, h));
    LoadStep(m, s);
    LoadStep(m2, t);
    NotWithin(ws, h);
    assert RegsMatch(ws, h + 1, s.regs[ws[h].a := Literal(ws[h])],
                     t.regs[ws[h + 2].a := Num(Int(FoldValue(ws, h)))]) by {
      FoldedHere(ws, h);
      assert Within(ws, h + 1, 1);
    }
    assert IsHead(ws, true, h + 1);
    Steps(m, m2, MappedBy(ws), FoldedRegs(ws), s, Step(m, s).s, t, Step(m2, t).s, r, |ws| - (h + 1));
  }

  lemma NotWithin(ws: Text, h: nat)
    requires Site(ws, h)
    ensures !Within(ws, h, 1) && !Within(ws, h, 2)
  {
    hide Pattern;
  }

  lemma SiteValue(ws: Text, h: nat)
    requires Site(ws, h)
    ensures h + 2 < |ws| && Rewritten(ws, h) == FoldWord(ws, h)
            && Literal(FoldWord(ws, h)) == Num(Int(FoldValue(ws, h)))
  {
    hide Walk;
    assert Pattern(ws, h);
  }

  // Falling out of an ordinary instruction, control is not inside a triple.
  lemma FallsOutside(ws: Text, pc: nat)
    requires Clean(ws) && IsHead(ws, true, pc) && !Deleted(ws, pc) && !Site(ws, pc)
    ensures !Within(ws, pc + Span(ws, pc, true), 1) && !Within(ws, pc + Span(ws, pc, true), 2)
  {
    hide Walk; hide Site; hide Span; hide Deleted; hide Clean;
    var q := pc + Span(ws, pc, true);
    if Within(ws, q, 1) {
      SiteShape(ws, q - 1);
      OnlyBefore(ws, pc, q - 1);
    }
    if Within(ws, q, 2) {
      SiteShape(ws, q - 2);
      OnlyBefore(ws, pc, q - 1);
    }
  }

  // Nor after a jump or a delivered exception.
  lemma LandsOutside(c: Code, t: nat)
    requires Clean(c.instrs) && Disciplined(c) && Targeted(c, t)
    ensures !Within(c.instrs, t, 1) && !Within(c.instrs, t, 2)
  {
    hide Walk; hide Site; hide Targeted; hide Clean; hide Disciplined; hide SingleUse;
    if Within(c.instrs, t, 1) { SiteDisciplined(c, t - 1); }
    if Within(c.instrs, t, 2) { SiteDisciplined(c, t - 2); }
  }

  lemma BranchTargeted(c: Code, pc: nat)
    requires Decode(c.instrs, pc).Some? && IsBranch(Decode(c.instrs, pc).value.op)
    ensures Targeted(c, BranchOf(Decode(c.instrs, pc).value))
  {
    hide Instr.Imm24; hide Instr.Imm16;
    var l := Decode(c.instrs, pc).value;
    var k := if c.instrs[pc].op == WIDE then pc + 2 else pc;
    assert l.word == c.instrs[k] && IsBranch(c.instrs[k].op) && BranchOf(l) == BranchTarget(c.instrs[k]);
  }

  lemma KeptFollows(m: Machine, s: State, t: State, r: nat)
    requires Stable(m.code) && Clean(m.code.instrs) && Mapped(m.code.instrs, s, t, r)
    requires s.pc < |m.code.instrs| && !Deleted(m.code.instrs, s.pc) && !Site(m.code.instrs, s.pc)
    ensures Follows(m, CompactMachine(m), MappedBy(m.code.instrs), FoldedRegs(m.code.instrs), s, t, r)
  {
    hide Walk; hide Follows; hide Disciplined; hide Index; hide Deleted; hide FoldedRegs; hide Compacted; hide Site;
    hide Clean; hide MapHandlers;
    hide Exec; hide Decode; hide UsesOf; hide Instr.Imm24; hide Instr.Imm16; hide FindHandler; hide PayloadOk;
    hide TargetsOk; hide HandlersOk; hide Targeted;
    var ws := m.code.instrs;
    var m2 := CompactMachine(m);
    var dead := FoldedRegs(ws);
    KeptNotWithin(ws, s.pc);
    KeptWord(ws, s.pc, 0);
    DecodeMoved(ws, s.pc);
    var d, d' := Decode(ws, s.pc), Decode(m2.code.instrs, t.pc);
    if d.None? {
      Finishes(m, m2, MappedBy(ws), dead, s, t, r);
      return;
    }
    DecodedOk(ws, s.pc); DecodedOk(m2.code.instrs, t.pc);
    ReadsNoFolded(m.code, s.pc);
    Lockstep(m.code, m2.code, m.host, d.value, d'.value, s.regs, t.regs, s.tr, dead);
    var e, e' := EffectAt(m, s), EffectAt(m2, t);
    match e
    case Next(regs, tr) =>
      NextPlace(ws, s.pc);
      FallsOutside(ws, s.pc);
      KeptWord(ws, s.pc, Span(ws, s.pc, true) - 1);
      var s1 := State(s.pc + d.value.width, regs, tr);
      Steps(m, m2, MappedBy(ws), dead, s, s1, t, State(t.pc + d'.value.width, e'.regs, tr), r, |ws| - s1.pc);
    case Goto(pc) =>
      BranchPlace(ws, s.pc);
      BranchTargeted(m.code, s.pc);
      LandsOutside(m.code, pc);
      Steps(m, m2, MappedBy(ws), dead, s, State(pc, s.regs, s.tr), t, State(e'.pc, t.regs, t.tr), r, |ws| - pc);
    case Halt(_) => Finishes(m, m2, MappedBy(ws), dead, s, t, r);
    case Bad => Finishes(m, m2, MappedBy(ws), dead, s, t, r);
    case Raise(v, tr) => RaiseFollows(m, s, t, r, v, tr);
  }

  lemma KeptNotWithin(ws: Text, pc: nat)
    requires !Deleted(ws, pc)
    ensures !Within(ws, pc, 1) && !Within(ws, pc, 2)
  {
    hide Site; hide Dead;
  }

  // An error raised by a kept instruction is dispatched to the image of its handler.
  lemma RaiseFollows(m: Machine, s: State, t: State, r: nat, v: Val, tr: Trace)
    requires Stable(m.code) && Clean(m.code.instrs) && Mapped(m.code.instrs, s, t, r)
    requires s.pc < |m.code.instrs| && !Deleted(m.code.instrs, s.pc)
    requires EffectAt(m, s) == Raise(v, tr) && EffectAt(CompactMachine(m), t) == Raise(v, tr)
    ensures Follows(m, CompactMachine(m), MappedBy(m.code.instrs), FoldedRegs(m.code.instrs), s, t, r)
  {
    hide Walk; hide Follows; hide Disciplined; hide Index; hide Deleted; hide FoldedRegs; hide Compacted; hide Site;
    hide Clean; hide MapHandlers;
    hide EffectAt; hide FindHandler; hide PayloadOk; hide TargetsOk; hide Targeted; hide WidthAt;
    var ws := m.code.instrs;
    var m2 := CompactMachine(m);
    var dead := FoldedRegs(ws);
    KeptNotWithin(ws, s.pc);
    DispatchPreserved(ws, m.code.handlers, s.pc);
    var f := FindHandler(m.code.handlers, s.pc);
    if f.None? {
      Finishes(m, m2, MappedBy(ws), dead, s, t, r);
    } else {
      HandlerTargeted(m.code, f.value);
      LandsOutside(m.code, f.value.target);
      DeliverAgree(s.regs, t.regs, f.value.depth, v, m.truncates, dead);
      Steps(m, m2, MappedBy(ws), dead, s, State(f.value.target, Deliver(s.regs, f.value.depth, v, m.truncates), tr),
            t, State(MapHandler(ws, f.value).target, Deliver(t.regs, f.value.depth, v, m.truncates), tr), r,
              |ws| - f.value.target);
    }
  }

  lemma HandlerTargeted(c: Code, h: Handler)
    requires h in c.handlers
    ensures Targeted(c, h.target)
  {
    var i :| 0 <= i < |c.handlers| && c.handlers[i] == h;
  }

  // ---- the whole --------------------------------------------------------

  // Folding, deleting and compacting preserve meaning in both directions.
  lemma CompactAlike(m: Machine, s: State)
    requires Stable(m.code) && Clean(m.code.instrs) && s.pc == 0
    ensures Alike(m, s, CompactMachine(m), s, FoldedRegs(m.code.instrs))
  {
    hide Site;
    var ws := m.code.instrs;
    var R := MappedBy(ws);
    forall a, b, r: nat | R(a, b, r) ensures Follows(m, CompactMachine(m), R, FoldedRegs(ws), a, b, r) {
      assert Follows(m, CompactMachine(m), MappedBy(m.code.instrs), FoldedRegs(m.code.instrs), a, b, r) by {
        var ws := m.code.instrs;
        if a.pc == |ws| {
          Finishes(m, CompactMachine(m), MappedBy(ws), FoldedRegs(ws), a, b, r);
        } else if Deleted(ws, a.pc) {
          DeletedFollows(m, a, b, r);
        } else if Site(ws, a.pc) {
          SiteFollows(m, a, b, r);
        } else {
          KeptFollows(m, a, b, r);
        }
      }
    }

    SimulationBothWays(m, CompactMachine(m), R, FoldedRegs(ws), s, s, |ws|);
  }
}
