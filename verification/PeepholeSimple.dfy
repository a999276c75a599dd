/**
 Code without register prefixes and without multiplication: no round of the peephole pass
 can harm it.  Both are visible in the code before the pass runs.
 */
module PeepholeSimple {
  import opened Words
  import opened Machine
  import opened Assembly
  import opened PeepholeSpec
  import opened PeepholeLayout
  import opened PeepholeSafe
  import opened PeepholeThread
  import opened PeepholeCompact
  import opened PeepholeKeeps
  import opened PeepholeCorrect

  predicate Tame(w: Instr) { !(w.op == WIDE && w.c == REG_EXT) && w.op != MUL }

  ghost predicate Simple(ws: Text) { forall p: nat :: IsHead(ws, true, p) ==> Tame(ws[p]) }

  // Without prefixes, sequences are instructions.
  lemma {:induction false} SameWalk(ws: Text, from: nat, p: nat)
    requires Simple(ws) && Place(ws, from)
    ensures Walk(ws, false, from, p) <==> Walk(ws, true, from, p)
    decreases |ws| - from
  {
    if from < |ws| {
      hide Walk;
      assert IsHead(ws, true, from) && Tame(ws[from]);

      NextPlace(ws, from);
      SameWalk(ws, from + Span(ws, from, true), p);
      WalkOnce(ws, false, from, p);
      WalkOnce(ws, true, from, p);
    }
  }

  lemma WalkOnce(ws: Text, merged: bool, from: nat, p: nat)
    requires from < |ws|
    ensures Walk(ws, merged, from, p) <==> from == p || (from < p && Walk(ws, merged, from + Span(ws, from, merged), p))
  {
    hide Span;
  }

  lemma SameHeads(ws: Text, p: nat)
    requires Simple(ws)
    ensures IsHead(ws, false, p) <==> IsHead(ws, true, p)
  {
    hide Simple;
    StartsAt(ws, true);
    SameWalk(ws, 0, p);
  }

  lemma SimpleClean(ws: Text)
    requires Simple(ws)
    ensures Clean(ws)
  {
    hide Walk;
    forall h: nat | Site(ws, h) ensures h + 2 < |ws| && ExactFold(ws, h) && IsHead(ws, true, h) {
      assert Pattern(ws, h);
      SameHeads(ws, h);
      SameHeads(ws, h + 2);
      assert Tame(ws[h + 2]);
    }
    forall h: nat | Dead(ws, h) ensures IsHead(ws, true, h) { SameHeads(ws, h); }
  }

  // So every round starts from clean code.
  lemma {:induction false} SimpleRounds(c: Code, k: nat)
    requires Stable(c) && Simple(c.instrs)
    ensures CleanRounds(c, k)
    decreases k
  {
    hide Clean; hide Stable; hide RoundOf; hide Changed; hide Simple;
    if k > 0 {
      SimpleClean(c.instrs);
      RoundStable(c);
      SimpleRound(c);
      if Changed(c) { SimpleRounds(RoundOf(c), k - 1); }
    }
  }

  lemma SimpleRound(c: Code)
    requires Stable(c) && Simple(c.instrs)
    ensures Simple(RoundOf(c).instrs)
  {
    hide Clean; hide Disciplined; hide Shaped; hide Simple;
    SimpleClean(c.instrs);
    if AnyDeleted(c.instrs) {
      assert CompactCode(c) == Packed(c);
      ShapedPacked(c);
      SimplePacked(c);
    }
    SimpleThreaded(CompactCode(c));
  }

  lemma SimplePacked(c: Code)
    requires Shaped(c) && Clean(c.instrs) && Simple(c.instrs)
    ensures Simple(Packed(c).instrs)
  {
    hide Walk; hide Clean; hide PayloadOk; hide TargetsOk; hide HandlersOk; hide Deleted; hide Index; hide Compacted;
    hide Site;
    var ws := c.instrs;
    var r := Packed(c).instrs;
    forall q: nat | IsHead(r, true, q) ensures Tame(r[q]) {
      var p := HeadUnmapped(ws, q);
      KeptWord(ws, p, 0);
      RemapShape(ws, Rewritten(ws, p));
      if Site(ws, p) { SiteLoads(ws, p); }
      assert Tame(ws[p]);
    }
  }

  lemma SimpleThreaded(c: Code)
    requires Shaped(c) && Simple(c.instrs)
    ensures Simple(ThreadCode(c).instrs)
  {
    hide Walk; hide AllForwarded; hide PayloadOk; hide TargetsOk; hide HandlersOk; hide Threaded; hide Follow;
    var ws := c.instrs;
    var r := ThreadCode(c).instrs;
    ThreadedForward(ws, |ws|);
    forall p: nat | IsHead(r, true, p) ensures Tame(r[p]) {
      HeadsThreaded(ws, r, p);
      ForwardedAt(ws, r, p);
      assert Tame(ws[p]);
    }
  }
}
