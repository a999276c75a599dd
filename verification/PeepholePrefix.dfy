/**
 Deleting a branch that stands behind a register prefix leaves the prefix to whatever
 follows (crates/v12-bccompiler/src/peephole.rs:109-149 walks prefix and branch as two
 sequences).  Exactly when compaction keeps every instruction an instruction.
 */
module PeepholePrefix {
  import opened Words
  import opened Machine
  import opened Assembly
  import opened PeepholeSpec
  import opened PeepholeLayout
  import opened PeepholeSafe
  import opened PeepholeThread
  import opened PeepholeCompact

  // A word a prefix in front of it would widen.
  predicate Widens(w: Instr) { Assigned(w.op) && w.op != WIDE }

  predicate IsPrefix(w: Instr) { w.op == WIDE && w.c == REG_EXT }

  // The words right in front of p are deleted, down to a branch behind a prefix.
  predicate Hangs(ws: Text, p: nat)
    decreases p
  {
    p > 0 && Deleted(ws, p - 1) && (!IsHead(ws, true, p - 1) || Hangs(ws, p - 1))
  }

  // The instruction at pc still starts an instruction, and it is the same one.
  ghost predicate Survives(ws: Text, pc: nat) {
    IsHead(Compacted(ws, |ws|), true, Index(ws, pc)) && (!Site(ws, pc) ==> MovedAlike(ws, pc))
  }

  ghost predicate AllSurvive(ws: Text) {
    forall pc: nat :: IsHead(ws, true, pc) && !Deleted(ws, pc) ==> Survives(ws, pc)
  }

  // ---- what is deleted --------------------------------------------------

  lemma DeletedPlain(ws: Text, k: nat)
    requires SitesOk(ws) && Deleted(ws, k)
    ensures IsHead(ws, false, k) && Volatile(ws[k].op) && WordWidth(ws, k) == 1
    ensures IsHead(ws, true, k) ==> Span(ws, k, true) == 1
    ensures Dead(ws, k) || IsHead(ws, true, k)
  {
    hide Walk;
    if k >= 1 && Site(ws, k - 1) { SiteHeads(ws, k - 1); }
    if k >= 2 && Site(ws, k - 2) { SiteHeads(ws, k - 2); }
  }

  lemma SiteHeads(ws: Text, h: nat)
    requires Site(ws, h) && IsHead(ws, true, h)
    ensures h + 3 < |ws|
            && forall k :: h < k <= h + 2 ==> IsHead(ws, true, k) && IsHead(ws, false, k) && Volatile(ws[k].op)
  {
    hide Walk;
    assert Pattern(ws, h);
    assert Span(ws, h, true) == 1 && Span(ws, h + 1, true) == 1;
    NextPlace(ws, h);
    NextPlace(ws, h + 1);
  }

  // A sequence that does not start an instruction stands behind a register prefix.
  lemma BehindPrefix(ws: Text, d: nat)
    requires IsHead(ws, false, d) && !IsHead(ws, true, d)
    ensures d >= 2 && IsHead(ws, true, d - 2) && IsPrefix(ws[d - 2]) && Span(ws, d - 2, true) == 3 && Widens(ws[d])
  {
    hide Walk;
    var p := WalkOwner(ws, true, 0, d);
    MergedIsPlain(ws, 0, p);
    WalkApart(ws, false, 0, p, d);
  }

  // A prefix whose branch is deleted.
  ghost predicate Carries(ws: Text, o: nat) {
    && IsHead(ws, true, o) && IsPrefix(ws[o]) && Span(ws, o, true) == 3
    && !Deleted(ws, o) && !Deleted(ws, o + 1) && Deleted(ws, o + 2) && !IsHead(ws, true, o + 2)
  }

  // An instruction goes, stays whole, or loses the branch behind its prefix.
  lemma Fate(ws: Text, o: nat)
    requires SitesOk(ws) && IsHead(ws, true, o)
    ensures Deleted(ws, o) || Whole(ws, o) || Carries(ws, o)
  {
    hide Walk; hide Deleted; hide Site; hide Span; hide Dead; hide Widens; hide WordWidth;
    if !Deleted(ws, o) && !Whole(ws, o) {
      var j: nat :| o <= j < o + Span(ws, o, true) && (Deleted(ws, j) || (j > o && Site(ws, j)));
      Inside(ws, o, j);
      assert Deleted(ws, j);
      DeletedPlain(ws, j);
      BehindPrefix(ws, j);
      SameOwner(ws, o, j - 2, j);
      if Deleted(ws, o + 1) {
        DeletedPlain(ws, o + 1);
        Inside(ws, o, o + 1);
        BehindPrefix(ws, o + 1);
        SameOwner(ws, o, o - 1, o + 1);
      }
    }
  }

  lemma SameOwner(ws: Text, p: nat, q: nat, k: nat)
    requires IsHead(ws, true, p) && IsHead(ws, true, q) && p <= k < p + Span(ws, p, true)
             && q <= k < q + Span(ws, q, true)
    ensures p == q
  {
    hide Walk; hide Span;
    if p < q { WalkApart(ws, true, 0, p, q); }
    if q < p { WalkApart(ws, true, 0, q, p); }
  }

  // ---- walking the compacted code ---------------------------------------

  // A prefix takes the next word along exactly when that word can be widened.
  lemma SpanAtPrefix(r: Text, x: nat)
    requires x + 2 <= |r| && IsPrefix(r[x])
    ensures Span(r, x, true) == if x + 2 < |r| && Widens(r[x + 2]) then 3 else 2
  {
  }

  // Where the walk of the compacted code stands when that of the original stands at p:
  // at the image of p, or just behind a prefix that lost its branch.
  ghost predicate Tracked(ws: Text, p: nat) {
    var (r, i) := (Compacted(ws, |ws|), Index(ws, p));
    if Hangs(ws, p) then 2 <= i <= |r| && Walk(r, true, 0, i - 2) && IsPrefix(r[i - 2])
    else i <= |r| && Walk(r, true, 0, i)
  }

  // Behind such a prefix the walk falls into step unless the next word is widened.
  lemma InStep(ws: Text, p: nat)
    requires Tracked(ws, p)
             && (Hangs(ws, p) && Index(ws, p) < |Compacted(ws, |ws|)| ==> !Widens(Compacted(ws, |ws|)[Index(ws, p)]))
    ensures Walk(Compacted(ws, |ws|), true, 0, Index(ws, p))
  {
    hide Walk; hide Compacted; hide Index; hide Hangs; hide Widens; hide Span;
    var (r, i) := (Compacted(ws, |ws|), Index(ws, p));
    if Hangs(ws, p) {
      SpanAtPrefix(r, i - 2);
      WalkNext(r, true, 0, i - 2);
    }
  }

  lemma {:induction false} Track(ws: Text, p: nat)
    requires |ws| < 0x1_0000 && PayloadOk(ws) && SitesOk(ws) && Place(ws, p)
    ensures Tracked(ws, p)
    decreases p
  {
    hide Walk; hide Deleted; hide Site; hide Span; hide Index;
    hide Compacted;
    if p == 0 {
      TrackStart(ws);
    } else {
      var o := WalkOwner(ws, true, 0, p - 1);
      WalkApart(ws, true, 0, o, p);
      Track(ws, o);
      Fate(ws, o);
      if Deleted(ws, o) {
        TrackDeleted(ws, o);
      } else if Whole(ws, o) {
        TrackWhole(ws, o);
      } else {
        assert Tracked(ws, o + Span(ws, o, true)) by {
          var (r, i) := (Compacted(ws, |ws|), Index(ws, o));
          WordOp(ws, o);
          InStep(ws, o);
          IndexRun(ws, o, o + 2);
          IndexDeleted(ws, o + 2);
          IndexMono(ws, o + 3, |ws|);
          assert Hangs(ws, o + 3);
        }
      }
    }
  }

  lemma TrackStart(ws: Text)
    ensures Tracked(ws, 0)
  {
  }

  lemma TrackDeleted(ws: Text, o: nat)
    requires SitesOk(ws) && IsHead(ws, true, o) && Deleted(ws, o) && Tracked(ws, o)
    ensures Tracked(ws, o + Span(ws, o, true))
  {
    hide Walk; hide Deleted; hide Site; hide Span; hide SitesOk; hide Index; hide Compacted; hide WordWidth;
    DeletedPlain(ws, o);
    IndexDeleted(ws, o);
  }

  lemma TrackWhole(ws: Text, o: nat)
    requires |ws| < 0x1_0000 && PayloadOk(ws) && IsHead(ws, true, o) && Whole(ws, o) && Tracked(ws, o)
    ensures Tracked(ws, o + Span(ws, o, true))
  {
    hide Walk; hide Deleted; hide Site; hide Index; hide Compacted; hide PayloadOk; hide Whole; hide Span; hide Remap;
    hide Rewritten; hide Widens;
    var (r, i, n) := (Compacted(ws, |ws|), Index(ws, o), Span(ws, o, true));
    WholeWord(ws, o, 0);
    WholeWord(ws, o, n - 1);
    SpanWhole(ws, o);
    WordOp(ws, o);
    if Hangs(ws, o) && Widens(r[i]) {
      SpanAtPrefix(r, i - 2);
      WalkNext(r, true, 0, i - 2);
      NarrowSpan(ws, o);
    } else {
      InStep(ws, o);
      WalkNext(r, true, 0, i);
    }
  }

  // A kept word keeps its opcode, a prefix stays one.
  lemma WordOp(ws: Text, k: nat)
    requires |ws| < 0x1_0000 && k < |ws| && !Deleted(ws, k)
    ensures var (r, i) := (Compacted(ws, |ws|), Index(ws, k));
            i < |r| && r[i].op == ws[k].op && (Widens(r[i]) <==> Widens(ws[k])) && (IsPrefix(ws[k]) ==> r[i] == ws[k])
  {
    hide Deleted; hide Site; hide Index; hide Compacted; hide Remap;
    CompactedAt(ws, |ws|, k);
    RemapShape(ws, Rewritten(ws, k));
    if Site(ws, k) { SiteLoads(ws, k); }
  }

  lemma NarrowSpan(ws: Text, o: nat)
    requires o < |ws| && Widens(ws[o])
    ensures Span(ws, o, true) == 1
  {
  }

  // ---- exactly when instructions survive --------------------------------

  // A kept instruction still starts one if and only if no prefix in front of it has
  // lost its branch, or the instruction cannot be widened.
  lemma BoundaryExact(ws: Text, q: nat)
    requires |ws| < 0x1_0000 && PayloadOk(ws) && SitesOk(ws) && IsHead(ws, true, q) && !Deleted(ws, q)
    ensures IsHead(Compacted(ws, |ws|), true, Index(ws, q)) <==> !(Hangs(ws, q) && Widens(ws[q]))
  {
    hide Walk; hide Deleted; hide Site; hide Index; hide Compacted; hide Span; hide PayloadOk; hide SitesOk; hide Hangs;
    var (r, i) := (Compacted(ws, |ws|), Index(ws, q));
    Track(ws, q);
    WordOp(ws, q);
    if Hangs(ws, q) && Widens(ws[q]) {
      SpanAtPrefix(r, i - 2);
      if Walk(r, true, 0, i) { WalkApart(r, true, 0, i - 2, i); }
    } else {
      InStep(ws, q);
    }
  }

  // The instruction behind a deleted branch is the same instruction afterwards if and
  // only if the branch had no prefix.
  lemma PrefixExact(ws: Text, h: nat)
    requires |ws| < 0x1_0000 && PayloadOk(ws) && SitesOk(ws) && Dead(ws, h)
    requires h + 1 < |ws| && Widens(ws[h + 1]) && !Deleted(ws, h + 1) && (h > 0 ==> !Deleted(ws, h - 1))
    ensures Survives(ws, h + 1) <==> IsHead(ws, true, h)
  {
    hide Deleted; hide Site; hide Span;

    DeadDeleted(ws, h);
    assert Hangs(ws, h + 1) <==> !IsHead(ws, true, h);
    DeadNext(ws, h);
    BoundaryExact(ws, h + 1);
    NarrowSpan(ws, h + 1);

    if !Site(ws, h + 1) { DecodeWhole(ws, h + 1); }
  }

  lemma DeadDeleted(ws: Text, h: nat)
    requires Dead(ws, h)
    ensures Deleted(ws, h) && IsHead(ws, false, h) && Widens(ws[h]) && WordWidth(ws, h) == 1
  {
    hide Walk; hide Site;
  }

  // Behind a dead branch an instruction starts, with a prefix in front or without.
  lemma DeadNext(ws: Text, h: nat)
    requires Dead(ws, h)
    ensures Place(ws, h + 1)
  {
    hide Walk; hide Span; hide Widens;
    DeadDeleted(ws, h);
    if IsHead(ws, true, h) {
      NarrowSpan(ws, h);
      WalkNext(ws, true, 0, h);
    } else {
      BehindPrefix(ws, h);
      WalkNext(ws, true, 0, h - 2);
    }
  }

  // Compaction keeps every instruction an instruction, the same one, if and only if no
  // deleted branch has a prefix.
  lemma CompactionExact(ws: Text)
    requires |ws| < 0x1_0000 && PayloadOk(ws) && SitesOk(ws)
    ensures AllSurvive(ws) <==> DeadOk(ws)
  {
    if DeadOk(ws) {
      assert AllSurvive(ws) by {
        forall pc: nat | IsHead(ws, true, pc) && !Deleted(ws, pc) ensures Survives(ws, pc) {
          NoneHangs(ws, pc);
          BoundaryExact(ws, pc);
          Fate(ws, pc);
          if Carries(ws, pc) { NoneCarries(ws, pc); }
          if !Site(ws, pc) { DecodeWhole(ws, pc); }
        }
      }
    } else {
      var h := Orphan(ws);
      var pc := Casualty(ws, h);
    }
  }

  lemma Orphan(ws: Text) returns (h: nat)
    requires !DeadOk(ws)
    ensures Dead(ws, h) && !IsHead(ws, true, h)
  {
    hide Dead; hide Walk;
    h :| Dead(ws, h) && !IsHead(ws, true, h);
  }

  lemma NoneCarries(ws: Text, o: nat)
    requires SitesOk(ws) && DeadOk(ws)
    ensures !Carries(ws, o)
  {
    hide Walk; hide Deleted; hide Site; hide Dead; hide Span; hide SitesOk;
    if Carries(ws, o) { DeletedPlain(ws, o + 2); }
  }

  lemma {:induction false} NoneHangs(ws: Text, p: nat)
    requires SitesOk(ws) && DeadOk(ws)
    ensures !Hangs(ws, p)
    decreases p
  {
    hide Walk; hide Deleted; hide Site; hide Dead; hide SitesOk;
    if p > 0 && Deleted(ws, p - 1) {
      DeletedPlain(ws, p - 1);
      NoneHangs(ws, p - 1);
    }
  }

  // Of the prefix of a deleted branch and the next kept instruction, one is lost.
  lemma Casualty(ws: Text, h: nat) returns (pc: nat)
    requires |ws| < 0x1_0000 && PayloadOk(ws) && SitesOk(ws) && Dead(ws, h) && !IsHead(ws, true, h)
    ensures IsHead(ws, true, pc) && !Deleted(ws, pc) && !Survives(ws, pc)
  {
    hide Compacted;
    hide Index;
    var r := Compacted(ws, |ws|);
    DeadDeleted(ws, h);
    BehindPrefix(ws, h);
    pc := h - 2;
    PrefixKept(ws, h);
    var i := Index(ws, pc);
    if MovedAlike(ws, pc) {
      assert var (r, i) := (Compacted(ws, |ws|), Index(ws, h - 2)); i + 2 < |r| && Widens(r[i + 2]) by {
        var d := Decode(ws, h - 2).value;
        assert d.width == 3 && d.op != WIDE;
      }
      var q := CompactedFrom(ws, |ws|, i + 2);
      assert h < q && forall k :: h <= k < q ==> Deleted(ws, k) by {
        if q < h { IndexStrict(ws, q, h); }
        forall k | h <= k < q ensures Deleted(ws, k) {
          if !Deleted(ws, k) {
            IndexMono(ws, h, k);
            IndexStrict(ws, k, q);
          }
        }
      }
      RunHangs(ws, h, q);
      WordOp(ws, q);
      BoundaryExact(ws, q);
      pc := q;
    } else {
      assert !Site(ws, pc) by { if Site(ws, pc) { SiteLoads(ws, pc); } }
    }
  }

  lemma PrefixKept(ws: Text, h: nat)
    requires SitesOk(ws) && Dead(ws, h) && h >= 2 && IsHead(ws, true, h - 2) && IsPrefix(ws[h - 2])
             && Span(ws, h - 2, true) == 3
    ensures !Deleted(ws, h - 2) && Index(ws, h) == Index(ws, h - 2) + 2
  {
    hide Walk; hide Deleted; hide Site; hide SitesOk; hide Index; hide Span; hide Dead; hide WordWidth;
    if Deleted(ws, h - 2) { DeletedPlain(ws, h - 2); }
    if Deleted(ws, h - 1) {
      DeletedPlain(ws, h - 1);
      Inside(ws, h - 2, h - 1);
      BehindPrefix(ws, h - 1);
      SameOwner(ws, h - 2, h - 3, h - 1);
    }
    IndexRun(ws, h - 2, h);
  }

  lemma {:induction false} RunHangs(ws: Text, h: nat, q: nat)
    requires SitesOk(ws) && Dead(ws, h) && !IsHead(ws, true, h) && h < q <= |ws|
             && forall k :: h <= k < q ==> Deleted(ws, k)
    ensures Hangs(ws, q) && Place(ws, q)
    decreases q
  {
    hide Walk; hide Deleted; hide SitesOk; hide Dead; hide Span;
    DeadNext(ws, h);
    if q > h + 1 {
      RunHangs(ws, h, q - 1);
      DeletedPlain(ws, q - 1);
      WalkNext(ws, true, 0, q - 1);
    }
  }
}
