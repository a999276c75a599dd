/**
 Folding, deleting and compacting preserve meaning: one stuttering simulation in which
 the optimized program waits while the original one executes deleted words.
 */
module PeepholeCompact {
  import opened Words
  import opened Machine
  import opened Assembly
  import opened Simulation
  import opened PeepholeSpec
  import opened PeepholeLayout
  import opened PeepholeSafe
  import opened PeepholeThread

  // ---- exception dispatch -----------------------------------------------

  lemma {:induction false} MappedFrom(ws: Text, hs: seq<Handler>, h: Handler) returns (i: nat)
    requires h in MapHandlers(ws, hs)
    ensures i < |hs| && h == MapHandler(ws, hs[i])
    decreases |hs|
  {
    hide MapHandler;
    var n := |hs| - 1;
    if h in MapHandlers(ws, hs[..n]) {
      i := MappedFrom(ws, hs[..n], h);
    } else {
      i := n;
    }
  }

  // Compaction preserves exception dispatch: at a kept word, the handler found
  // afterwards is the image of the one found before, even where distinct starts
  // collapse and emptied ranges are gone.
  lemma {:induction false} DispatchPreserved(ws: Text, hs: seq<Handler>, pc: nat)
    requires pc < |ws| && !Deleted(ws, pc)
    requires forall i, j :: 0 <= i < j < |hs| ==> hs[i].start <= hs[j].start
    requires forall i :: 0 <= i < |hs| ==> hs[i].start <= |ws| && hs[i].end <= |ws|
    ensures FindHandler(MapHandlers(ws, hs), Index(ws, pc)) ==
            match FindHandler(hs, pc) case None => None case Some(h) => Some(MapHandler(ws, h))
    decreases |hs|
  {
    if hs == [] {
      NoHandlers(pc); NoHandlers(Index(ws, pc));
      return;
    }
    var n := |hs| - 1;
    var (init, last) := (hs[..n], hs[n]);
    assert hs == init + [last];
    DispatchPreserved(ws, init, pc);
    assert MapHandler(ws, last).Covers(Index(ws, pc)) <==> last.Covers(pc) by {
      if last.start <= pc { IndexMono(ws, last.start, pc); } else { IndexStrict(ws, pc, last.start); }
      if pc < last.end { IndexStrict(ws, pc, last.end); } else { IndexMono(ws, last.end, pc); }
    }
    var (init', last') := (MapHandlers(ws, init), MapHandler(ws, last));
    FindSnoc(init, last, pc);
    FindSnoc(init', last', Index(ws, pc));
    var found := FindHandler(init, pc);
    if found.Some? { StartsMapped(ws, found.value, last); }
    if last'.end <= last'.start {
      assert MapHandlers(ws, hs) == init' + [] == init';
    }
  }

  lemma NoHandlers(pc: nat)
    ensures FindHandler([], pc) == None
  {
  }

  lemma FindSnoc(hs: seq<Handler>, last: Handler, pc: nat)
    ensures FindHandler(hs + [last], pc) ==
            var rest := FindHandler(hs, pc);
            if last.Covers(pc) && (rest.None? || rest.value.start <= last.start) then Some(last) else rest
    ensures FindHandler(hs, pc).Some? ==> FindHandler(hs, pc).value in hs
  {
    assert (hs + [last])[..|hs|] == hs;
  }

  lemma StartsMapped(ws: Text, h: Handler, k: Handler)
    requires h.start <= k.start
    ensures MapHandler(ws, h).start <= MapHandler(ws, k).start
  {
    IndexMono(ws, Min(h.start, |ws|), Min(k.start, |ws|));
  }

  // ---- what is deleted --------------------------------------------------

  // A folded triple: three one-word instructions in a row, the first one kept.
  lemma SiteShape(ws: Text, h: nat)
    requires Clean(ws) && Site(ws, h)
    ensures h + 3 < |ws| && ws[h].op == LOAD_INT && ws[h + 1].op == LOAD_INT && IsFoldable(ws[h + 2].op)
    ensures forall k :: h <= k <= h + 2 ==> IsHead(ws, true, k) && Span(ws, k, true) == 1
    ensures Place(ws, h + 3)
    ensures !Deleted(ws, h) && Deleted(ws, h + 1) && Deleted(ws, h + 2) && !Site(ws, h + 1) && !Site(ws, h + 2)
  {
    hide Walk;
    assert Pattern(ws, h);
    assert Span(ws, h, true) == 1 && Span(ws, h + 1, true) == 1 && Span(ws, h + 2, true) == 1;
    NextPlace(ws, h);
    NextPlace(ws, h + 1);
    NextPlace(ws, h + 2);
  }

  lemma DeletedShape(ws: Text, k: nat)
    requires Clean(ws) && Deleted(ws, k)
    ensures IsHead(ws, true, k) && Volatile(ws[k].op) && Span(ws, k, true) == 1
  {
    hide Walk;
    if k >= 1 && Site(ws, k - 1) { SiteShape(ws, k - 1); }
    if k >= 2 && Site(ws, k - 2) { SiteShape(ws, k - 2); }
  }

  // The instruction at pc is kept whole: none of its words is deleted, and no fold
  // starts inside it.
  ghost predicate Whole(ws: Text, pc: nat) {
    pc < |ws| && forall j: nat :: pc <= j < pc + Span(ws, pc, true) ==> !Deleted(ws, j) && (j > pc ==> !Site(ws, j))
  }

  lemma CleanWhole(ws: Text, pc: nat)
    requires Clean(ws) && IsHead(ws, true, pc) && !Deleted(ws, pc)
    ensures Whole(ws, pc)
  {
    hide Walk; hide Deleted; hide Site; hide Span;
    forall j: nat | pc <= j < pc + Span(ws, pc, true) ensures !Deleted(ws, j) && (j > pc ==> !Site(ws, j)) {
      if j > pc {
        Inside(ws, pc, j);
        if Deleted(ws, j) { DeletedShape(ws, j); }
      }
    }
  }

  // A whole instruction moves as a block: its k-th word.
  lemma WholeWord(ws: Text, pc: nat, k: nat)
    requires Whole(ws, pc) && k < Span(ws, pc, true)
    ensures !Deleted(ws, pc + k) && (k > 0 ==> !Site(ws, pc + k))
    ensures Index(ws, pc + k) == Index(ws, pc) + k && Index(ws, pc + k + 1) == Index(ws, pc) + k + 1
    ensures var r := Compacted(ws, |ws|);
            Index(ws, pc) + k < |r| && r[Index(ws, pc) + k] == Remap(ws, Rewritten(ws, pc + k))
  {
    hide Walk; hide Deleted; hide Site; hide Span; hide Remap; hide Rewritten; hide Index;
    IndexRun(ws, pc, pc + k);
    IndexRun(ws, pc, pc + k + 1);
    CompactedAt(ws, |ws|, pc + k);
  }

  lemma KeptWord(ws: Text, pc: nat, k: nat)
    requires Clean(ws) && IsHead(ws, true, pc) && !Deleted(ws, pc) && k < Span(ws, pc, true)
    ensures !Deleted(ws, pc + k) && (k > 0 ==> !Site(ws, pc + k))
    ensures Index(ws, pc + k) == Index(ws, pc) + k && Index(ws, pc + k + 1) == Index(ws, pc) + k + 1
    ensures var r := Compacted(ws, |ws|);
            Index(ws, pc) + k < |r| && r[Index(ws, pc) + k] == Remap(ws, Rewritten(ws, pc + k))
  {
    hide Walk; hide Deleted; hide Site; hide Span; hide Remap; hide Rewritten; hide Index; hide Whole; hide Clean;
    CleanWhole(ws, pc);
    WholeWord(ws, pc, k);
  }

  lemma RemapShape(ws: Text, w: Instr)
    requires |ws| < 0x1_0000
    ensures Remap(ws, w).op == w.op
    ensures if IsBranch(w.op) then BranchTarget(Remap(ws, w)) == Index(ws, Min(BranchTarget(w), |ws|))
            && (w.op != JUMP ==> Remap(ws, w).a == w.a)
            else Remap(ws, w) == w
  {
    hide Index; hide Instr.Imm16; hide Instr.Imm24;
  }

  // What has become of the instruction at pc at its new place.
  ghost predicate MovedAlike(ws: Text, pc: nat) {
    var (d, d') := (Decode(ws, pc), Decode(Compacted(ws, |ws|), Index(ws, pc)));
    if d.None? then d'.None?
    else
      && d'.Some? && SameButTarget(d.value, d'.value) && d'.value.width == d.value.width
      && (IsBranch(d.value.op) ==> BranchOf(d'.value) == Index(ws, Min(BranchOf(d.value), |ws|)))
  }

  // A kept instruction that is not rewritten decodes the same at its new place, with
  // its target mapped.
  lemma DecodeMoved(ws: Text, pc: nat)
    requires Clean(ws) && |ws| < 0x1_0000 && PayloadOk(ws) && IsHead(ws, true, pc) && !Deleted(ws, pc) && !Site(ws, pc)
    ensures MovedAlike(ws, pc)
  {
    hide Walk; hide Deleted; hide Site; hide Whole; hide MovedAlike; hide PayloadOk; hide Clean;
    CleanWhole(ws, pc);
    DecodeWhole(ws, pc);
  }

  lemma DecodeWhole(ws: Text, pc: nat)
    requires |ws| < 0x1_0000 && PayloadOk(ws) && IsHead(ws, true, pc) && Whole(ws, pc) && !Site(ws, pc)
    ensures MovedAlike(ws, pc)
  {
    hide MovedAlike; hide Walk; hide Site; hide Whole; hide PayloadOk; hide Index;
    if ws[pc].op != WIDE || ws[pc].c > MAX_DISC || pc + WideWidth(ws[pc].c) > |ws| {
      DecodeNarrow(ws, pc);
    } else if ws[pc].c == REG_EXT {
      DecodePrefixed(ws, pc);
    } else {
      DecodeWide(ws, pc);
    }
  }

  // One word: an instruction without a prefix, or one that does not decode.
  lemma DecodeNarrow(ws: Text, pc: nat)
    requires |ws| < 0x1_0000 && IsHead(ws, true, pc) && Whole(ws, pc) && !Site(ws, pc)
    requires ws[pc].op != WIDE || ws[pc].c > MAX_DISC || pc + WideWidth(ws[pc].c) > |ws|
    ensures MovedAlike(ws, pc)
  {
    hide Walk; hide Deleted; hide Site; hide Remap; hide Index; hide Instr.Imm16; hide Instr.Imm24; hide Compacted;
    hide Whole; hide PayloadOk;
    WholeWord(ws, pc, 0);
    IndexMono(ws, pc, |ws|);
    RemapShape(ws, ws[pc]);
  }

  lemma DecodeWide(ws: Text, pc: nat)
    requires |ws| < 0x1_0000 && PayloadOk(ws) && IsHead(ws, true, pc) && Whole(ws, pc) && !Site(ws, pc)
    requires ws[pc].op == WIDE && ws[pc].c <= MAX_DISC && pc + WideWidth(ws[pc].c) <= |ws| && ws[pc].c != REG_EXT
    ensures MovedAlike(ws, pc)
  {
    hide Walk; hide Deleted; hide Site; hide Remap; hide Index; hide Instr.Imm16; hide Instr.Imm24; hide Compacted;
    hide Whole; hide PayloadOk;
    WholeWord(ws, pc, 0);
    RemapShape(ws, ws[pc]);
    PayloadMoved(ws, pc);
  }

  lemma DecodePrefixed(ws: Text, pc: nat)
    requires |ws| < 0x1_0000 && PayloadOk(ws) && IsHead(ws, true, pc) && Whole(ws, pc) && !Site(ws, pc)
    requires ws[pc].op == WIDE && ws[pc].c == REG_EXT && pc + WideWidth(REG_EXT) <= |ws|
    ensures MovedAlike(ws, pc)
  {
    hide Walk; hide Deleted; hide Site; hide Remap; hide Index; hide Instr.Imm16; hide Instr.Imm24; hide Compacted;
    hide Whole; hide PayloadOk;
    WholeWord(ws, pc, 0);
    RemapShape(ws, ws[pc]);
    PayloadMoved(ws, pc);
    if pc + 2 < |ws| {
      CarriedMoved(ws, pc);
    } else {
      NothingCarried(ws, pc);
    }
  }

  // At the end of the code nothing follows a prefix, before and after.
  lemma NothingCarried(ws: Text, pc: nat)
    requires Whole(ws, pc) && ws[pc].op == WIDE && ws[pc].c == REG_EXT && pc + 2 == |ws|
    ensures Index(ws, pc) + 2 == |Compacted(ws, |ws|)|
  {
    hide Deleted; hide Site; hide Index; hide Compacted; hide Whole;
    assert Span(ws, pc, true) == 2;
    WholeWord(ws, pc, 1);
  }

  lemma PayloadMoved(ws: Text, pc: nat)
    requires |ws| < 0x1_0000 && PayloadOk(ws) && IsHead(ws, true, pc) && Whole(ws, pc)
    requires ws[pc].op == WIDE && ws[pc].c <= MAX_DISC && pc + WideWidth(ws[pc].c) <= |ws|
    ensures var (r, i, w) := (Compacted(ws, |ws|), Index(ws, pc), WideWidth(ws[pc].c));
            i + w <= |r| && r[i + 1..i + w] == ws[pc + 1..pc + w]
  {
    hide Walk; hide Deleted; hide Site; hide Remap; hide Rewritten; hide Index; hide Compacted; hide Span;
    hide WideWidth; hide PayloadOk; hide WordWidth; hide Whole;
    var (r, i, w) := (Compacted(ws, |ws|), Index(ws, pc), WideWidth(ws[pc].c));
    WidthInSpan(ws, pc);
    WholeWord(ws, pc, w - 1);
    forall q | i + 1 <= q < i + w ensures r[q] == ws[q - i + pc] {
      WholeWord(ws, pc, q - i);
      PayloadKept(ws, pc, q - i + pc);
    }
  }

  lemma WidthInSpan(ws: Text, pc: nat)
    requires pc < |ws| && ws[pc].op == WIDE && ws[pc].c <= MAX_DISC && pc + WideWidth(ws[pc].c) <= |ws|
    ensures 2 <= WideWidth(ws[pc].c) == WordWidth(ws, pc) <= Span(ws, pc, true)
  {
  }

  lemma PayloadKept(ws: Text, p: nat, k: nat)
    requires |ws| < 0x1_0000 && PayloadOk(ws) && IsHead(ws, true, p) && p < k < p + WordWidth(ws, p) && !Site(ws, k)
    ensures Remap(ws, Rewritten(ws, k)) == ws[k]
  {
    hide Walk; hide Site;
    RemapShape(ws, ws[k]);
  }

  // The word behind a register prefix moves along with it.
  lemma CarriedMoved(ws: Text, pc: nat)
    requires |ws| < 0x1_0000 && IsHead(ws, true, pc) && Whole(ws, pc)
    requires ws[pc].op == WIDE && ws[pc].c == REG_EXT && pc + 2 < |ws|
    ensures var (r, i) := (Compacted(ws, |ws|), Index(ws, pc));
            var n := ws[pc + 2];
            if Assigned(n.op) && n.op != WIDE then
              && i + 2 < |r| && r[i + 2] == Remap(ws, n) && r[i + 2].op == n.op
              && (if IsBranch(n.op) then BranchTarget(r[i + 2]) == Index(ws, Min(BranchTarget(n), |ws|))
                  && (n.op != JUMP ==> r[i + 2].a == n.a)
                  else r[i + 2] == n)
            else i + 2 < |r| && r[i + 2].op == n.op
  {
    hide Walk; hide Deleted; hide Site; hide Remap; hide Index; hide Compacted; hide Rewritten; hide Whole;
    var (r, i) := (Compacted(ws, |ws|), Index(ws, pc));
    var n := ws[pc + 2];
    if Assigned(n.op) && n.op != WIDE {
      assert Span(ws, pc, true) == 3;
      WholeWord(ws, pc, 2);
      NotRewritten(ws, pc + 2);
      RemapShape(ws, n);
    } else {
      assert Span(ws, pc, true) == 2;
      WholeWord(ws, pc, 1);
      if Deleted(ws, pc + 2) { DeletedOp(ws, pc + 2); }
      CompactedAt(ws, |ws|, pc + 2);
      NotSiteOp(ws, pc + 2);
      RemapShape(ws, n);
    }
  }

  lemma DeletedOp(ws: Text, k: nat)
    requires Deleted(ws, k)
    ensures k < |ws| && Volatile(ws[k].op)
  {
    hide Walk;
  }

  // So is its length kept.
  lemma SpanWhole(ws: Text, pc: nat)
    requires |ws| < 0x1_0000 && PayloadOk(ws) && IsHead(ws, true, pc) && Whole(ws, pc)
    ensures var (r, i) := (Compacted(ws, |ws|), Index(ws, pc));
            i < |r| && Span(r, i, true) == Span(ws, pc, true) && WordWidth(r, i) == WordWidth(ws, pc)
  {
    hide Walk; hide Deleted; hide Site; hide Remap; hide Index; hide Compacted; hide PayloadOk; hide Whole;
    var (r, i) := (Compacted(ws, |ws|), Index(ws, pc));
    WholeWord(ws, pc, 0);
    if Site(ws, pc) {
      SiteLoads(ws, pc);
      RemapShape(ws, FoldWord(ws, pc));
    } else {
      RemapShape(ws, ws[pc]);
      assert var (r, i) := (Compacted(ws, |ws|), Index(ws, pc)); i < |r| && WordWidth(r, i) == WordWidth(ws, pc) by {
        WholeWord(ws, pc, 0);
        RemapShape(ws, ws[pc]);
        IndexMono(ws, pc, |ws|);
        if ws[pc].op == WIDE && ws[pc].c <= MAX_DISC && pc + WideWidth(ws[pc].c) <= |ws| {
          PayloadMoved(ws, pc);
        }
      }
      hide Decode;
      DecodeWhole(ws, pc);
    }
  }

  lemma SiteLoads(ws: Text, pc: nat)
    requires Site(ws, pc)
    ensures pc + 3 < |ws| && ws[pc].op == LOAD_INT && Rewritten(ws, pc) == FoldWord(ws, pc)
  {
    assert Pattern(ws, pc);
  }

  lemma NotRewritten(ws: Text, k: nat)
    requires k < |ws| && !Site(ws, k)
    ensures Rewritten(ws, k) == ws[k]
  {
  }

  lemma NotSiteOp(ws: Text, k: nat)
    requires k < |ws| && ws[k].op != LOAD_INT
    ensures !Site(ws, k) && Rewritten(ws, k) == ws[k]
  {
  }
}
