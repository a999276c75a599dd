/**
 The peephole pass never turns code the validator accepts into code it rejects.
 */
module PeepholeAccepts {
  import opened Words
  import opened Machine
  import opened Assembly
  import opened Simulation
  import opened PeepholeSpec
  import opened PeepholeLayout
  import opened PeepholeSafe
  import opened PeepholeThread
  import opened PeepholeCompact
  import opened PeepholeFold
  import opened PeepholeKeeps
  import opened PeepholeCorrect
  import opened Validator

  // ---- one instruction --------------------------------------------------

  // A branch may move its target inside the code; everything else stays as it is.
  lemma SameVerdict(l: Logical, l': Logical, envs: EnvStack, end: nat, end': nat, pool: nat, maxRegs: nat)
    requires Decoded(l) && Decoded(l') && SameButTarget(l, l') && LogicalOk(l, envs, end, pool, maxRegs)
    requires IsBranch(l.op) ==> BranchOf(l') <= end'
    ensures LogicalOk(l', envs, end', pool, maxRegs)
  {
    hide EnvsAfter; hide Instr.Imm24; hide Instr.Imm16; hide WideRegisters;
    SameEnvs(l, l', envs);
    if IsBranch(l.op) {
      hide RolesOf; hide BranchOf;
      assert RoleAt(l.op, 1).Imm? && RoleAt(l.op, 2).Imm? && (RoleAt(l.op, 0).Src? ==> Operand(l', 0) == Operand(l, 0));
    }
  }

  lemma SameEnvs(l: Logical, l': Logical, envs: EnvStack)
    requires Decoded(l) && Decoded(l') && SameButTarget(l, l')
    ensures EnvsAfter(l', envs) == EnvsAfter(l, envs)
            && (IsBranch(l.op) ==> EnvsAfter(l, envs) == envs && Access(l) == None == Access(l'))
  {
    hide Instr.Lo;
  }

  // ---- threading --------------------------------------------------------

  lemma {:induction false} EnvsThreaded(ws: Text, r: Text, from: nat, envs: EnvStack, p: nat)
    requires AllForwarded(ws, r) && PayloadOk(ws) && Place(ws, from)
    ensures |r| == |ws| && EnvsAt(r, from, envs, p) == EnvsAt(ws, from, envs, p)
    decreases |ws| - from
  {
    hide AllForwarded; hide PayloadOk; hide Span; hide Decode; hide EnvsAfter; hide Walk; hide Follow;
    SameLength(ws, r);
    if !(from >= p || from == |ws|) {
      SpanThreaded(ws, r, from);
      DecodeThreaded(ws, r, from);
      NextPlace(ws, from);
      var (d, d') := (Decode(ws, from), Decode(r, from));
      if d.Some? {
        DecodedOk(ws, from); DecodedOk(r, from);
        SameEnvs(d.value, d'.value, envs);
        EnvsThreaded(ws, r, from + Span(ws, from, true), EnvsAfter(d.value, envs), p);
      } else {
        EnvsThreaded(ws, r, from + Span(ws, from, true), envs, p);
      }
    }
  }

  lemma AcceptsThreaded(c: Code, maxRegs: nat)
    requires Shaped(c) && Accepts(c.instrs, |c.consts|, maxRegs)
    ensures Accepts(ThreadCode(c).instrs, |c.consts|, maxRegs)
  {
    hide Walk; hide AllForwarded; hide PayloadOk; hide TargetsOk;
    hide Follow;
    var ws := c.instrs;
    var r := ThreadCode(c).instrs;
    ThreadedForward(ws, |ws|);
    SameLength(ws, r);
    forall p: nat | p < |r| && IsHead(r, true, p) ensures InstrOk(r, p, EnvsAt(r, 0, [], p), |c.consts|, maxRegs) {
      HeadsThreaded(ws, r, p);
      StartsAt(ws, true);
      EnvsThreaded(ws, r, 0, [], p);
      assert InstrOk(r, p, EnvsAt(ws, 0, [], p), |c.consts|, maxRegs) by {
        SameLength(ws, r);
        DecodeThreaded(ws, r, p);
        DecodedOk(r, p);
        var (l, l') := (Decode(ws, p).value, Decode(r, p).value);
        if IsBranch(l.op) {
          BranchPlace(ws, p);
          var h: nat :| BranchOf(l') == Follow(ws, BranchOf(l), h);
          FollowPlace(ws, BranchOf(l), h);
        }
        SameVerdict(l, l', EnvsAt(ws, 0, [], p), |ws|, |r|, |c.consts|, maxRegs);
      }
    }
  }

  // ---- compaction -------------------------------------------------------

  // A kept instruction leaves the environments as it did.
  lemma EnvsKept(ws: Text, from: nat, envs: EnvStack)
    requires Clean(ws) && |ws| < 0x1_0000 && PayloadOk(ws) && IsHead(ws, true, from) && !Deleted(ws, from)
    ensures EnvsStep(Compacted(ws, |ws|), Index(ws, from), envs) == EnvsStep(ws, from, envs)
  {
    hide Walk; hide Deleted; hide Index; hide Compacted; hide Clean; hide PayloadOk; hide Site; hide EnvsAfter;
    hide BranchOf;
    var (r, i) := (Compacted(ws, |ws|), Index(ws, from));
    if Site(ws, from) {
      KeptWord(ws, from, 0);
      SiteLoads(ws, from);
      RemapShape(ws, FoldWord(ws, from));
      LiteralEnvs(ws, from, envs);
      LiteralEnvs(r, i, envs);
    } else {
      DecodeMoved(ws, from);
      hide Decode;
      if Decode(ws, from).Some? {
        DecodedOk(ws, from); DecodedOk(r, i);
        SameEnvs(Decode(ws, from).value, Decode(r, i).value, envs);
      }
    }
  }

  // The environments behind the instruction at p.
  function EnvsStep(ws: Text, p: nat, envs: EnvStack): EnvStack {
    var d := Decode(ws, p);
    if d.Some? && DecodedFine(ws, p) then EnvsAfter(d.value, envs) else envs
  }

  lemma LiteralEnvs(ws: Text, p: nat, envs: EnvStack)
    requires p < |ws| && Volatile(ws[p].op)
    ensures EnvsStep(ws, p, envs) == envs
  {
  }

  lemma EnvsUnfold(ws: Text, from: nat, envs: EnvStack, p: nat)
    requires from < p && from < |ws|
    ensures EnvsAt(ws, from, envs, p) == EnvsAt(ws, from + Span(ws, from, true), EnvsStep(ws, from, envs), p)
  {
    hide Span; hide Decode; hide EnvsAfter;
  }

  lemma {:induction false} EnvsMapped(ws: Text, from: nat, envs: EnvStack, p: nat)
    requires Clean(ws) && |ws| < 0x1_0000 && PayloadOk(ws) && Place(ws, from) && IsHead(ws, true, p) && !Deleted(ws, p)
             && Walk(ws, true, from, p)
    ensures Index(ws, from) <= |Compacted(ws, |ws|)|
    ensures EnvsAt(Compacted(ws, |ws|), Index(ws, from), envs, Index(ws, p)) == EnvsAt(ws, from, envs, p)
    decreases |ws| - from
  {
    hide Deleted; hide Index; hide Compacted; hide Clean; hide PayloadOk; hide Span; hide EnvsStep; hide Decode;
    var r := Compacted(ws, |ws|);
    IndexMono(ws, from, |ws|);
    WalkOrder(ws, true, from, p);
    if from < p {
      NextPlace(ws, from);
      var next := from + Span(ws, from, true);
      EnvsUnfold(ws, from, envs, p);
      EnvsMapped(ws, next, EnvsStep(ws, from, envs), p);
      if Deleted(ws, from) {
        DeletedShape(ws, from);
        IndexDeleted(ws, from);
        LiteralEnvs(ws, from, envs);
      } else {
        SpanMoved(ws, from);
        KeptWord(ws, from, Span(ws, from, true) - 1);
        IndexStrict(ws, from, p);
        EnvsKept(ws, from, envs);
        IndexMono(ws, p, |ws|);
        EnvsUnfold(r, Index(ws, from), envs, Index(ws, p));
      }
    } else {
      EnvsNow(ws, from, envs, p);
      EnvsNow(r, Index(ws, from), envs, Index(ws, p));
    }
  }

  lemma EnvsNow(ws: Text, from: nat, envs: EnvStack, p: nat)
    requires from <= |ws| && from >= p
    ensures EnvsAt(ws, from, envs, p) == envs
  {
  }

  lemma AcceptsPacked(c: Code, maxRegs: nat)
    requires Shaped(c) && Clean(c.instrs) && Accepts(c.instrs, |c.consts|, maxRegs)
    ensures Accepts(Packed(c).instrs, |c.consts|, maxRegs)
  {
    hide Walk; hide Clean; hide PayloadOk; hide TargetsOk; hide Deleted;
    hide Index; hide Compacted;
    var ws := c.instrs;
    var r := Packed(c).instrs;
    forall q: nat | q < |r| && IsHead(r, true, q) ensures InstrOk(r, q, EnvsAt(r, 0, [], q), |c.consts|, maxRegs) {
      var p := HeadUnmapped(ws, q);
      StartsAt(ws, true);
      EnvsMapped(ws, 0, [], p);
      IndexZero(ws);
      assert InstrOk(Compacted(ws, |ws|), Index(ws, p), EnvsAt(ws, 0, [], p), |c.consts|, maxRegs) by {
        var (r, i) := (Compacted(ws, |ws|), Index(ws, p));
        if Site(ws, p) {
          FoldAccepted(ws, p, EnvsAt(ws, 0, [], p), |c.consts|, maxRegs);
        } else {
          DecodeMoved(ws, p);
          DecodedOk(r, i);
          var (l, l') := (Decode(ws, p).value, Decode(r, i).value);
          if IsBranch(l.op) {
            IndexMono(ws, Min(BranchOf(l), |ws|), |ws|);
          }
          SameVerdict(l, l', EnvsAt(ws, 0, [], p), |ws|, |r|, |c.consts|, maxRegs);
        }
      }
    }
  }

  // The literal a fold leaves goes where the arithmetic's result went.
  lemma FoldAccepted(ws: Text, p: nat, envs: EnvStack, pool: nat, maxRegs: nat)
    requires Clean(ws) && |ws| < 0x1_0000 && Site(ws, p) && !Deleted(ws, p) && Accepts(ws, pool, maxRegs)
    ensures InstrOk(Compacted(ws, |ws|), Index(ws, p), envs, pool, maxRegs)
  {
    hide Walk; hide Clean; hide Deleted; hide Index; hide Compacted; hide Site; hide Accepts; hide EnvsAt;
    SiteShape(ws, p);
    KeptWord(ws, p, 0);
    SiteLoads(ws, p);
    RemapShape(ws, FoldWord(ws, p));
    ResultInFrame(ws, p + 2, pool, maxRegs);
    LiteralAccepted(Compacted(ws, |ws|), Index(ws, p), envs, pool, maxRegs);
  }

  lemma ResultInFrame(ws: Text, h: nat, pool: nat, maxRegs: nat)
    requires Accepts(ws, pool, maxRegs) && IsHead(ws, true, h) && IsFoldable(ws[h].op)
    ensures ws[h].a < maxRegs
  {
    hide Walk; hide EnvsAt; hide WindowsOk; hide FlagsOk; hide AccessOk; hide EnvsAfter;
    assert InstrOk(ws, h, EnvsAt(ws, 0, [], h), pool, maxRegs);
    var l := Decode(ws, h).value;
    assert RolesOf(l.op).a.Dst?;
    assert RoleAt(l.op, 0).Dst? && Operand(l, 0) == ws[h].a;
  }

  lemma LiteralAccepted(r: Text, i: nat, envs: EnvStack, pool: nat, maxRegs: nat)
    requires i < |r| && r[i].op == LOAD_INT && r[i].a < maxRegs
    ensures InstrOk(r, i, envs, pool, maxRegs)
  {
    var l := Decode(r, i).value;
    assert RoleAt(l.op, 0).Dst? && RoleAt(l.op, 1).Unused? && RoleAt(l.op, 2).Imm?;
    assert Operand(l, 0) == r[i].a;
  }

  // ---- rounds -----------------------------------------------------------

  lemma ShapedParts(c: Code)
    requires Shaped(c)
    ensures |c.instrs| < 0x1_0000
  {
  }

  // The whole pass keeps acceptance.
  lemma {:induction false} AcceptsOptimized(c: Code, maxRegs: nat, k: nat)
    requires Stable(c) && CleanRounds(c, k) && Accepts(c.instrs, |c.consts|, maxRegs)
    ensures Accepts(Optimized(c, k).instrs, |Optimized(c, k).consts|, maxRegs)
    decreases k
  {
    hide Clean; hide Accepts;
    if k > 0 {
      assert Accepts(RoundOf(c).instrs, |RoundOf(c).consts|, maxRegs) by {
        var c1 := CompactCode(c);
        if AnyDeleted(c.instrs) {
          assert c1 == Packed(c);
          ShapedPacked(c);
          ShapedParts(c);
          AcceptsPacked(c, maxRegs);
        }
        AcceptsThreaded(c1, maxRegs);
      }
      RoundStable(c);
      if Changed(c) { AcceptsOptimized(RoundOf(c), maxRegs, k - 1); }
    }
  }

  // ---- windows ----------------------------------------------------------

  lemma ContainedRound(c: Code, maxRegs: nat)
    requires Stable(c) && Clean(c.instrs) && Contained(c.instrs, maxRegs)
    ensures Contained(RoundOf(c).instrs, maxRegs)
  {
    hide Clean;
    var c1 := CompactCode(c);
    if AnyDeleted(c.instrs) {
      assert c1 == Packed(c);
      ShapedPacked(c);
      ShapedParts(c);
      assert Contained(Packed(c).instrs, maxRegs) by {
        var (ws, r) := (c.instrs, Packed(c).instrs);
        forall q: nat, u | IsHead(r, true, q) && u in UsesAt(r, q) ensures u < maxRegs {
          var p := HeadUnmapped(ws, q);
          UsesMoved(ws, p);
        }
      }
    }
    assert Contained(ThreadCode(c1).instrs, maxRegs) by {
      var ws := c1.instrs;
      var r := ThreadCode(c1).instrs;
      ThreadedForward(ws, |ws|);
      forall p: nat, u | IsHead(r, true, p) && u in UsesAt(r, p) ensures u < maxRegs {
        SameLength(ws, r);
        HeadsThreaded(ws, r, p);
        UsesThreaded(ws, r, p);
      }
    }
  }

  // The pass makes no instruction read outside the frame.
  lemma {:induction false} ContainedOptimized(c: Code, maxRegs: nat, k: nat)
    requires Stable(c) && CleanRounds(c, k) && Contained(c.instrs, maxRegs)
    ensures Contained(Optimized(c, k).instrs, maxRegs)
    decreases k
  {
    hide Clean; hide Stable; hide RoundOf; hide Changed; hide Contained;
    if k > 0 {
      ContainedRound(c, maxRegs);
      RoundStable(c);
      if Changed(c) { ContainedOptimized(RoundOf(c), maxRegs, k - 1); }
    }
  }
}
