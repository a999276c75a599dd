/**
 The pass leaves behind what it relies on: after a round the branches still go to
 instructions, payloads are still not branches, handlers are still sorted, and literals
 that may yet be folded are still single-use.  So the next round may start.
 */
module PeepholeKeeps {
  import opened Words
  import opened Machine
  import opened Assembly
  import opened Simulation
  import opened PeepholeSpec
  import opened PeepholeLayout
  import opened PeepholeSafe
  import opened PeepholeThread
  import opened PeepholeCompact
  import opened PeepholeFold

  // ---- threading --------------------------------------------------------

  lemma SpanThreaded(ws: Text, r: Text, pc: nat)
    requires AllForwarded(ws, r) && PayloadOk(ws) && IsHead(ws, true, pc)
    ensures Span(r, pc, true) == Span(ws, pc, true) && WordWidth(r, pc) == WordWidth(ws, pc)
  {
    hide Walk; hide Decode; hide PayloadOk; hide Follow;
    DecodeThreaded(ws, r, pc);
    ForwardedAt(ws, r, pc);
  }

  lemma {:induction false} WalkThreaded(ws: Text, r: Text, from: nat, p: nat)
    requires AllForwarded(ws, r) && PayloadOk(ws) && Place(ws, from)
    ensures Walk(r, true, from, p) <==> Walk(ws, true, from, p)
    decreases |ws| - from
  {
    hide AllForwarded; hide PayloadOk; hide Span;
    SameLength(ws, r);
    if from < |ws| {
      SpanThreaded(ws, r, from);
      NextPlace(ws, from);
      WalkThreaded(ws, r, from + Span(ws, from, true), p);
    }
  }

  lemma SameLength(ws: Text, r: Text)
    requires AllForwarded(ws, r)
    ensures |r| == |ws|
  {
  }

  lemma HeadsThreaded(ws: Text, r: Text, p: nat)
    requires AllForwarded(ws, r) && PayloadOk(ws)
    ensures (IsHead(r, true, p) <==> IsHead(ws, true, p)) && (Place(r, p) <==> Place(ws, p))
  {
    hide PayloadOk; hide Span;
    WalkThreaded(ws, r, 0, p);
  }

  // A chased target is the target of some branch.
  lemma {:induction false} FollowTargeted(c: Code, t: nat, h: nat)
    requires Targeted(c, t)
    ensures Targeted(c, Follow(c.instrs, t, h))
    decreases h
  {
    hide Instr.Imm24; hide Instr.Imm16;
    var ws := c.instrs;
    if !(h == 0 || t >= |ws| || ws[t].op != JUMP) {
      assert BranchTarget(ws[t]) == ws[t].Imm24();
      FollowTargeted(c, ws[t].Imm24(), h - 1);
    }
  }

  lemma TargetedThreaded(c: Code, r: Text, t: nat)
    requires AllForwarded(c.instrs, r) && Targeted(c.(instrs := r), t)
    ensures Targeted(c, t)
  {
    hide Follow; hide Instr.Imm24; hide Instr.Imm16;
    var c' := c.(instrs := r);
    if k :| 0 <= k < |r| && IsBranch(r[k].op) && BranchTarget(r[k]) == t {
      ForwardedAt(c.instrs, r, k);
      var w := c.instrs[k];
      var h: nat :| BranchTarget(r[k]) == Follow(c.instrs, BranchTarget(w), h);
      assert Targeted(c, BranchTarget(w));
      FollowTargeted(c, BranchTarget(w), h);
    }
  }

  lemma UsesSame(l: Logical, l': Logical)
    requires Decoded(l) && Decoded(l') && SameButTarget(l, l')
    ensures UsesOf(l') == UsesOf(l)
  {
    hide WideShape; hide NarrowShape;
    if IsBranch(l.op) { BranchUses(l); BranchUses(l'); }
  }

  lemma BranchUses(l: Logical)
    requires IsBranch(l.op)
    ensures NarrowShape(l).uses == if l.op == JUMP then [] else [l.a]
  {
  }

  lemma UsesThreaded(ws: Text, r: Text, pc: nat)
    requires AllForwarded(ws, r) && PayloadOk(ws) && IsHead(ws, true, pc)
    ensures UsesAt(r, pc) == UsesAt(ws, pc)
  {
    hide Walk; hide Decode; hide PayloadOk; hide Follow; hide UsesOf; hide AllForwarded;
    DecodeThreaded(ws, r, pc);
    if Decode(ws, pc).Some? {
      DecodedOk(ws, pc); DecodedOk(r, pc);
      UsesSame(Decode(ws, pc).value, Decode(r, pc).value);
    }
  }

  lemma ShapedThreaded(c: Code)
    requires Shaped(c)
    ensures Shaped(ThreadCode(c))
  {
    hide Walk; hide AllForwarded; hide Follow; hide WordWidth; hide Threaded; hide Instr.Imm24; hide Instr.Imm16;
    var ws := c.instrs;
    var r := ThreadCode(c).instrs;
    ThreadedForward(ws, |ws|);
    forall k | 0 <= k < |r| && IsBranch(r[k].op) ensures Place(r, BranchTarget(r[k])) {
      ForwardedAt(ws, r, k);
      var h: nat :| BranchTarget(r[k]) == Follow(ws, BranchTarget(ws[k]), h);
      FollowPlace(ws, BranchTarget(ws[k]), h);
      HeadsThreaded(ws, r, BranchTarget(r[k]));
    }
    forall p: nat, k: nat | IsHead(r, true, p) && p < k < p + WordWidth(r, p) ensures !IsBranch(r[k].op) {
      HeadsThreaded(ws, r, p);
      SpanThreaded(ws, r, p);
      ForwardedAt(ws, r, k);
    }
    forall i | 0 <= i < |c.handlers| ensures Place(r, c.handlers[i].target) {
      HeadsThreaded(ws, r, c.handlers[i].target);
    }
  }

  lemma DisciplinedThreaded(c: Code)
    requires Stable(c)
    ensures Disciplined(ThreadCode(c))
  {
    hide Walk; hide AllForwarded; hide PayloadOk;

    var ws := c.instrs;
    var r := ThreadCode(c).instrs;
    ThreadedForward(ws, |ws|);
    forall p1: nat, p2: nat, q: nat | Feeds(r, p1, p2, q)
      ensures SingleUse(ThreadCode(c), q) && NoEntry(ThreadCode(c), Min(p1, p2), q)
    {
      assert Feeds(ws, p1, p2, q) && ws[q] == r[q] by {
        HeadsThreaded(ws, r, Min(p1, p2));
        SameLength(ws, r);
        forall k | Min(p1, p2) <= k < q ensures Volatile(ws[k].op) { ForwardedAt(ws, r, k); }
        ForwardedAt(ws, r, p1); ForwardedAt(ws, r, p2); ForwardedAt(ws, r, q);
      }
      assert SingleUse(c, q) && NoEntry(c, Min(p1, p2), q);
      forall u: nat | IsHead(r, true, u) && u != q ensures ws[q].b !in UsesAt(r, u) && ws[q].c !in UsesAt(r, u) {
        HeadsThreaded(ws, r, u);
        UsesThreaded(ws, r, u);
      }
      forall t | Min(p1, p2) < t <= q ensures !Targeted(ThreadCode(c), t) {
        if Targeted(ThreadCode(c), t) { TargetedThreaded(c, r, t); }
      }
    }
  }

  // ---- compaction: boundaries -------------------------------------------

  function Packed(c: Code): Code {
    Code(Compacted(c.instrs, |c.instrs|), c.consts, MapHandlers(c.instrs, c.handlers))
  }

  lemma SpanMoved(ws: Text, pc: nat)
    requires Clean(ws) && |ws| < 0x1_0000 && PayloadOk(ws) && IsHead(ws, true, pc) && !Deleted(ws, pc)
    ensures var (r, i) := (Compacted(ws, |ws|), Index(ws, pc));
            i < |r| && Span(r, i, true) == Span(ws, pc, true) && WordWidth(r, i) == WordWidth(ws, pc)
  {
    hide Walk; hide Deleted; hide Index; hide Compacted; hide Clean; hide PayloadOk; hide Whole;
    CleanWhole(ws, pc);
    SpanWhole(ws, pc);
  }

  // Boundaries go to boundaries.
  lemma {:induction false} WalkMapped(ws: Text, from: nat, p: nat)
    requires Clean(ws) && |ws| < 0x1_0000 && PayloadOk(ws) && Place(ws, from) && Walk(ws, true, from, p) && p <= |ws|
    ensures Index(ws, from) <= |Compacted(ws, |ws|)| && Walk(Compacted(ws, |ws|), true, Index(ws, from), Index(ws, p))
    decreases |ws| - from
  {
    hide Deleted; hide Index; hide Compacted; hide Clean; hide PayloadOk; hide Span;
    IndexMono(ws, from, |ws|);
    if from < p {
      NextPlace(ws, from);
      var next := from + Span(ws, from, true);
      WalkMapped(ws, next, p);
      if Deleted(ws, from) {
        DeletedShape(ws, from);
        IndexDeleted(ws, from);
      } else {
        SpanMoved(ws, from);
        KeptWord(ws, from, Span(ws, from, true) - 1);
        WalkOrder(ws, true, next, p);
        IndexStrict(ws, from, p);
      }
    }
  }

  lemma PlaceMapped(ws: Text, p: nat)
    requires Clean(ws) && |ws| < 0x1_0000 && PayloadOk(ws) && Place(ws, p)
    ensures Place(Compacted(ws, |ws|), Index(ws, p))
  {
    hide Clean; hide PayloadOk; hide Span; hide Deleted; hide Compacted;
    WalkMapped(ws, 0, p);
    IndexMono(ws, p, |ws|);
  }

  // Every boundary of the result is the image of a kept instruction.
  lemma {:induction false} WalkUnmapped(ws: Text, from: nat, q: nat) returns (p: nat)
    requires Clean(ws) && |ws| < 0x1_0000 && PayloadOk(ws) && Place(ws, from)
             && Index(ws, from) <= |Compacted(ws, |ws|)|
    requires Walk(Compacted(ws, |ws|), true, Index(ws, from), q) && q < |Compacted(ws, |ws|)|
    ensures IsHead(ws, true, p) && !Deleted(ws, p) && Index(ws, p) == q
    decreases |ws| - from
  {
    hide Deleted; hide Index; hide Clean; hide PayloadOk; hide Span;
    WalkOrder(Compacted(ws, |ws|), true, Index(ws, from), q);
    assert from < |ws|;
    NextPlace(ws, from);
    IndexMono(ws, from + Span(ws, from, true), |ws|);
    if Deleted(ws, from) {
      DeletedShape(ws, from);
      IndexDeleted(ws, from);
      p := WalkUnmapped(ws, from + 1, q);
    } else if Index(ws, from) == q {
      p := from;
    } else {
      SpanMoved(ws, from);
      KeptWord(ws, from, Span(ws, from, true) - 1);
      p := WalkUnmapped(ws, from + Span(ws, from, true), q);
    }
  }

  lemma HeadUnmapped(ws: Text, q: nat) returns (p: nat)
    requires Clean(ws) && |ws| < 0x1_0000 && PayloadOk(ws) && IsHead(Compacted(ws, |ws|), true, q)
    ensures IsHead(ws, true, p) && !Deleted(ws, p) && Index(ws, p) == q
  {
    hide Clean; hide PayloadOk; hide Span; hide Deleted; hide Compacted;
    p := WalkUnmapped(ws, 0, q);
  }

  // ---- compaction: shape ------------------------------------------------

  // Where word i of the result comes from.
  lemma WordUnmapped(ws: Text, i: nat) returns (k: nat)
    requires |ws| < 0x1_0000 && i < |Compacted(ws, |ws|)|
    ensures k < |ws| && !Deleted(ws, k) && Index(ws, k) == i && Compacted(ws, |ws|)[i] == Remap(ws, Rewritten(ws, k))
    ensures Compacted(ws, |ws|)[i].op == ws[k].op
    ensures IsBranch(ws[k].op) ==> BranchTarget(Compacted(ws, |ws|)[i]) == Index(ws, Min(BranchTarget(ws[k]), |ws|))
    ensures !IsBranch(ws[k].op) ==> Compacted(ws, |ws|)[i] == Rewritten(ws, k)
  {
    hide Deleted; hide Index; hide Remap; hide Walk;
    k := CompactedFrom(ws, |ws|, i);
    CompactedAt(ws, |ws|, k);
    RemapShape(ws, Rewritten(ws, k));
    assert Site(ws, k) ==> ws[k].op == LOAD_INT by { if Site(ws, k) { assert Pattern(ws, k); } }
  }

  lemma ShapedPacked(c: Code)
    requires Shaped(c) && Clean(c.instrs)
    ensures Shaped(Packed(c))
  {
    hide Walk; hide Clean; hide Deleted; hide Index; hide Compacted; hide WordWidth; hide TargetsOk; hide PayloadOk;
    hide HandlersOk;
    var ws := c.instrs;
    var r := Packed(c).instrs;
    assert |r| <= |ws| by { PackedLength(ws); }
    TargetsPacked(ws);
    PayloadPacked(ws);
    HandlersPacked(ws, c.handlers);
  }

  lemma PackedLength(ws: Text)
    ensures |Compacted(ws, |ws|)| <= |ws|
  {
  }

  lemma TargetsPacked(ws: Text)
    requires Clean(ws) && |ws| < 0x1_0000 && PayloadOk(ws) && TargetsOk(ws)
    ensures TargetsOk(Compacted(ws, |ws|))
  {
    hide Walk; hide Clean; hide Deleted; hide Index; hide Compacted; hide PayloadOk; hide Rewritten; hide Remap;
    hide Instr.Imm24; hide Instr.Imm16;
    var r := Compacted(ws, |ws|);
    forall i | 0 <= i < |r| && IsBranch(r[i].op) ensures Place(r, BranchTarget(r[i])) {
      var k := WordUnmapped(ws, i);
      PlaceMapped(ws, BranchTarget(ws[k]));
    }
  }

  lemma PayloadPacked(ws: Text)
    requires Clean(ws) && |ws| < 0x1_0000 && PayloadOk(ws)
    ensures PayloadOk(Compacted(ws, |ws|))
  {
    hide Walk; hide Clean; hide Deleted; hide Index; hide Compacted; hide WordWidth; hide Span; hide Site; hide Remap;
    var r := Compacted(ws, |ws|);
    forall q: nat, k: nat | IsHead(r, true, q) && q < k < q + WordWidth(r, q) ensures !IsBranch(r[k].op) {
      var p := HeadUnmapped(ws, q);
      SpanMoved(ws, p);
      PayloadWithin(ws, p);
      KeptWord(ws, p, k - q);
      RemapShape(ws, Rewritten(ws, p + (k - q)));
    }
  }

  lemma PayloadWithin(ws: Text, p: nat)
    requires p < |ws|
    ensures WordWidth(ws, p) <= Span(ws, p, true)
  {
  }

  lemma HandlersPacked(ws: Text, hs: seq<Handler>)
    requires Clean(ws) && |ws| < 0x1_0000 && PayloadOk(ws) && HandlersOk(ws, hs)
    ensures HandlersOk(Compacted(ws, |ws|), MapHandlers(ws, hs))
  {
    var hs' := MapHandlers(ws, hs);
    forall i | 0 <= i < |hs'|
      ensures hs'[i].start <= |Compacted(ws, |ws|)| && hs'[i].end <= |Compacted(ws, |ws|)|
              && Place(Compacted(ws, |ws|), hs'[i].target)
    {
      var j := MappedFrom(ws, hs, hs'[i]);
      IndexMono(ws, hs[j].start, |ws|); IndexMono(ws, hs[j].end, |ws|);

      PlaceMapped(ws, hs[j].target);
    }
    SortedMapped(ws, hs);
  }

  lemma {:induction false} SortedMapped(ws: Text, hs: seq<Handler>)
    requires forall i, j :: 0 <= i < j < |hs| ==> hs[i].start <= hs[j].start
    ensures var hs' := MapHandlers(ws, hs); forall i, j :: 0 <= i < j < |hs'| ==> hs'[i].start <= hs'[j].start
    decreases |hs|
  {
    hide MapHandler;
    if hs != [] {
      var n := |hs| - 1;
      SortedMapped(ws, hs[..n]);
      var init' := MapHandlers(ws, hs[..n]);
      var last' := MapHandler(ws, hs[n]);
      forall i | 0 <= i < |init'| ensures init'[i].start <= last'.start {
        var j := MappedFrom(ws, hs[..n], init'[i]);
        StartsMapped(ws, hs[j], hs[n]);
      }
    }
  }

  // ---- compaction: single-use literals ----------------------------------

  lemma UsesMoved(ws: Text, pc: nat)
    requires Clean(ws) && |ws| < 0x1_0000 && PayloadOk(ws) && IsHead(ws, true, pc) && !Deleted(ws, pc)
    ensures forall u :: u in UsesAt(Compacted(ws, |ws|), Index(ws, pc)) ==> u in UsesAt(ws, pc)
  {
    hide Walk; hide Deleted; hide Site; hide Index; hide Compacted; hide Clean; hide PayloadOk; hide UsesOf; hide Remap;
    var r := Compacted(ws, |ws|);
    if Site(ws, pc) {
      SiteShape(ws, pc); SiteValue(ws, pc);
      KeptWord(ws, pc, 0);
      RemapShape(ws, FoldWord(ws, pc));
      LoadUses(r, Index(ws, pc));
    } else {
      hide Decode;
      DecodeMoved(ws, pc);
      if Decode(ws, pc).Some? {
        DecodedOk(ws, pc); DecodedOk(r, Index(ws, pc));
        UsesSame(Decode(ws, pc).value, Decode(r, Index(ws, pc)).value);
      }
    }
  }

  lemma LoadUses(ws: Text, pc: nat)
    requires pc < |ws| && ws[pc].op == LOAD_INT
    ensures UsesAt(ws, pc) == []
  {
  }

  // The producer of an operand in the original code.
  function Origin(ws: Text, k: nat): nat { if Site(ws, k) then k + 2 else k }

  // A volatile stretch from a boundary on consists of one-word instructions.
  lemma {:induction false} VolatileHeads(ws: Text, p: nat, k: nat)
    requires IsHead(ws, true, p) && p <= k < |ws| && forall j :: p <= j < k ==> Volatile(ws[j].op)
    ensures IsHead(ws, true, k)
    decreases k
  {
    hide Walk;
    if p < k {
      VolatileHeads(ws, p, k - 1);
      assert Span(ws, k - 1, true) == 1;
      NextPlace(ws, k - 1);
    }
  }

  // Operands fed in the result were fed in the original, by the same arithmetic.
  lemma FeedsUnmapped(ws: Text, p1: nat, p2: nat, q: nat) returns (k1: nat, k2: nat, k: nat)
    requires Clean(ws) && |ws| < 0x1_0000 && PayloadOk(ws) && Feeds(Compacted(ws, |ws|), p1, p2, q)
    ensures k1 < |ws| && k2 < |ws| && k < |ws| && Index(ws, k1) == p1 && Index(ws, k2) == p2 && Index(ws, k) == q
    ensures !Deleted(ws, k1) && !Deleted(ws, k2) && !Deleted(ws, k) && k1 < k && k2 < k && k1 != k2
    ensures ws[k] == Compacted(ws, |ws|)[q] && Feeds(ws, Origin(ws, k1), Origin(ws, k2), k) && IsHead(ws, true, k)
    ensures Min(Origin(ws, k1), Origin(ws, k2)) == Origin(ws, Min(k1, k2)) && Index(ws, Min(k1, k2)) == Min(p1, p2)
  {
    hide Walk; hide Clean; hide Deleted; hide Index; hide Compacted; hide Site; hide Remap; hide PayloadOk;
    var r := Compacted(ws, |ws|);
    var p := Min(p1, p2);
    var b := HeadUnmapped(ws, p);
    k1 := WordUnmapped(ws, p1); k2 := WordUnmapped(ws, p2); k := WordUnmapped(ws, q);
    KeptOrder(ws, k, k1); KeptOrder(ws, k, k2); KeptOrder(ws, k1, k2); KeptOrder(ws, k2, k1);
    KeptOrder(ws, b, k1); KeptOrder(ws, k1, b); KeptOrder(ws, b, k2); KeptOrder(ws, k2, b); KeptOrder(ws, k, b);
    NotSiteOp(ws, k);
    forall j | b <= j < k ensures Volatile(ws[j].op) {
      if Deleted(ws, j) {
        DeletedShape(ws, j);
      } else {
        CompactedAt(ws, |ws|, j);
        KeptOrder(ws, b, j); KeptOrder(ws, j, k); KeptOrder(ws, j, b);
        var i := Index(ws, j);
        var j' := WordUnmapped(ws, i);
        KeptOrder(ws, j, j'); KeptOrder(ws, j', j);
        assert p <= i < q;
      }
    }
    OriginOk(ws, k1, k); OriginOk(ws, k2, k);
    OriginApart(ws, k1, k2); OriginApart(ws, k2, k1);
    VolatileHeads(ws, b, Min(Origin(ws, k1), Origin(ws, k2)));
    VolatileHeads(ws, b, k);
  }

  lemma KeptOrder(ws: Text, j: nat, k: nat)
    requires !Deleted(ws, k)
    ensures Index(ws, j) > Index(ws, k) ==> j > k
    ensures Index(ws, j) == Index(ws, k) && !Deleted(ws, j) ==> j == k
    ensures j < k && !Deleted(ws, j) ==> Index(ws, j) < Index(ws, k)
  {
    hide Deleted; hide Index;
    if j <= k { IndexMono(ws, j, k); }
    if j < k && !Deleted(ws, j) { IndexStrict(ws, j, k); }
    if k < j { IndexStrict(ws, k, j); }
  }

  // The origin of a kept producer produces the same register, before the next kept word.
  lemma OriginOk(ws: Text, k: nat, q: nat)
    requires Clean(ws) && k < q < |ws| && !Deleted(ws, k) && !Deleted(ws, q)
    ensures k <= Origin(ws, k) < q
    ensures Producer(Rewritten(ws, k).op) ==>
              Producer(ws[Origin(ws, k)].op) && ws[Origin(ws, k)].a == Rewritten(ws, k).a
  {
    hide Walk; hide Deleted; hide Clean; hide Site;
    if Site(ws, k) { SiteShape(ws, k); }
  }

  lemma OriginApart(ws: Text, j: nat, k: nat)
    requires Clean(ws) && !Deleted(ws, j) && !Deleted(ws, k)
    ensures j < k ==> Origin(ws, j) < k
  {
    hide Walk; hide Deleted; hide Clean; hide Site;
    if Site(ws, j) { SiteShape(ws, j); }
  }

  // What is targeted in the result is the image of something targeted.
  lemma TargetedUnmapped(c: Code, t: nat) returns (u: nat)
    requires Shaped(c) && Targeted(Packed(c), t)
    ensures Targeted(c, u) && u <= |c.instrs| && Index(c.instrs, u) == t
  {
    hide Walk; hide Deleted; hide Index; hide Compacted; hide PayloadOk; hide Rewritten; hide Remap; hide Instr.Imm24;
    hide Instr.Imm16; hide MapHandlers;
    var ws := c.instrs;
    var r := Packed(c);
    if k :| 0 <= k < |r.instrs| && IsBranch(r.instrs[k].op) && BranchTarget(r.instrs[k]) == t {
      var j := WordUnmapped(ws, k);
      u := BranchTarget(ws[j]);
    } else {
      var i :| 0 <= i < |r.handlers| && r.handlers[i].target == t;
      var j := MappedFrom(ws, c.handlers, r.handlers[i]);
      u := c.handlers[j].target;
    }
  }

  lemma DisciplinedPacked(c: Code)
    requires Stable(c) && Clean(c.instrs)
    ensures Disciplined(Packed(c))
  {
    hide Feeds; hide SingleUse; hide NoEntry;

    var r := Packed(c);

    forall p1: nat, p2: nat, q: nat | Feeds(r.instrs, p1, p2, q) ensures SingleUse(r, q) && NoEntry(r, Min(p1, p2), q) {
      FeedsPacked(c, p1, p2, q);
    }
  }

  lemma FeedsPacked(c: Code, p1: nat, p2: nat, q: nat)
    requires Stable(c) && Clean(c.instrs) && Feeds(Packed(c).instrs, p1, p2, q)
    ensures q < |Packed(c).instrs| && SingleUse(Packed(c), q) && NoEntry(Packed(c), Min(p1, p2), q)
  {
    hide Walk; hide Clean; hide Deleted; hide Index; hide Compacted; hide Site; hide UsesAt; hide Targeted;
    hide TargetsOk; hide PayloadOk; hide HandlersOk; hide MapHandlers;
    var ws := c.instrs;
    var r := Packed(c);
    var k1, k2, k := FeedsUnmapped(ws, p1, p2, q);
    assert SingleUse(c, k) && NoEntry(c, Min(Origin(ws, k1), Origin(ws, k2)), k);
    forall u: nat | IsHead(r.instrs, true, u) && u != q
      ensures ws[k].b !in UsesAt(r.instrs, u) && ws[k].c !in UsesAt(r.instrs, u)
    {
      var p := HeadUnmapped(ws, u);
      UsesMoved(ws, p);
    }
    forall t | Min(p1, p2) < t <= q ensures !Targeted(r, t) {
      if Targeted(r, t) {
        NoTargetBetween(c, Min(k1, k2), k, t);
      }
    }
  }

  lemma NoTargetBetween(c: Code, b: nat, k: nat, t: nat)
    requires Stable(c) && Clean(c.instrs) && !Deleted(c.instrs, b) && !Deleted(c.instrs, k) && b < k
    requires NoEntry(c, Origin(c.instrs, b), k) && Index(c.instrs, b) < t <= Index(c.instrs, k)
    ensures !Targeted(Packed(c), t)
  {
    hide Walk; hide Clean; hide Deleted; hide Index; hide Compacted; hide Site; hide Targeted; hide TargetsOk;
    hide PayloadOk; hide HandlersOk; hide Disciplined; hide SingleUse;
    if Targeted(Packed(c), t) {
      var u := TargetedUnmapped(c, t);
      KeptOrder(c.instrs, u, b);
      if k < u { IndexStrict(c.instrs, k, u); }
      if Site(c.instrs, b) { SiteDisciplined(c, b); }
    }
  }
}
