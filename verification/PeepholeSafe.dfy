/**
 What the peephole pass relies on without checking it: the shape of the code, the
 single use of literal temporaries, and the two guards every round needs.
 */
module PeepholeSafe {
  import opened Words
  import opened Machine
  import opened Assembly
  import opened PeepholeSpec
  import opened PeepholeLayout

  // ---- shape of the code ------------------------------------------------

  // Branches go to instructions or to the end.
  ghost predicate TargetsOk(ws: Text) {
    forall k :: 0 <= k < |ws| && IsBranch(ws[k].op) ==> Place(ws, BranchTarget(ws[k]))
  }

  // No payload word of an instruction looks like a branch.
  ghost predicate PayloadOk(ws: Text) {
    forall p: nat, k: nat :: IsHead(ws, true, p) && p < k < p + WordWidth(ws, p) ==> !IsBranch(ws[k].op)
  }

  // Handlers are sorted by start, as `finish` leaves them, and stay inside the code.
  ghost predicate HandlersOk(ws: Text, hs: seq<Handler>) {
    && (forall i, j :: 0 <= i < j < |hs| ==> hs[i].start <= hs[j].start)
    && (forall i :: 0 <= i < |hs| ==> hs[i].start <= |ws| && hs[i].end <= |ws| && Place(ws, hs[i].target))
  }

  ghost predicate Shaped(c: Code) {
    |c.instrs| < 0x1_0000 && TargetsOk(c.instrs) && PayloadOk(c.instrs) && HandlersOk(c.instrs, c.handlers)
  }

  // Control can arrive at t other than by falling into it.
  ghost predicate Targeted(c: Code, t: nat) {
    || (exists k :: 0 <= k < |c.instrs| && IsBranch(c.instrs[k].op) && BranchTarget(c.instrs[k]) == t)
    || (exists i :: 0 <= i < |c.handlers| && c.handlers[i].target == t)
  }

  // ---- single-use literals ----------------------------------------------

  // Instructions that folding and branch deletion can make disappear.
  predicate Volatile(op: int) {
    op == LOAD_INT || IsFoldable(op) || op == JUMP || op == JUMP_IF_FALSE || op == JUMP_IF_TRUE
  }

  predicate Producer(op: int) { op == LOAD_INT || IsFoldable(op) }

  // The operands of the arithmetic at q are produced at p1 and p2, with nothing but
  // volatile instructions from there on.
  ghost predicate Feeds(ws: Text, p1: nat, p2: nat, q: nat) {
    && p1 < q && p2 < q && p1 != p2 && q < |ws|
    && IsHead(ws, true, Min(p1, p2)) && IsFoldable(ws[q].op)
    && (forall k :: Min(p1, p2) <= k < q ==> Volatile(ws[k].op))
    && Producer(ws[p1].op) && Producer(ws[p2].op)
    && ws[p1].a == ws[q].b && ws[p2].a == ws[q].c
  }

  // The safety invariant folding relies on: such operands are distinct temporaries
  // that nothing else reads, and control enters only at the front.
  ghost predicate Disciplined(c: Code) {
    forall p1: nat, p2: nat, q: nat :: Feeds(c.instrs, p1, p2, q) ==> SingleUse(c, q) && NoEntry(c, Min(p1, p2), q)
  }

  ghost predicate SingleUse(c: Code, q: nat) {
    && q < |c.instrs|
    && var (x, y) := (c.instrs[q].b, c.instrs[q].c);
    && x != y
    && forall r: nat :: IsHead(c.instrs, true, r) && r != q ==> x !in UsesAt(c.instrs, r) && y !in UsesAt(c.instrs, r)
  }

  ghost predicate NoEntry(c: Code, p: nat, q: nat) {
    forall t: nat :: p < t <= q ==> !Targeted(c, t)
  }

  ghost predicate Stable(c: Code) { Shaped(c) && Disciplined(c) }

  // ---- what has to be looked at in every round --------------------------

  // Folding a product is exact unless it is the negative zero.
  predicate ExactFold(ws: Text, h: nat)
    requires h + 2 < |ws|
  {
    !(ws[h + 2].op == MUL && FoldValue(ws, h) == 0 && (Sign8(ws[h].c) < 0 || Sign8(ws[h + 1].c) < 0))
  }

  // No fold meets a negative zero.
  ghost predicate FoldsOk(ws: Text) { forall h: nat :: Site(ws, h) ==> h + 2 < |ws| && ExactFold(ws, h) }

  // Every fold starts an instruction.
  ghost predicate SitesOk(ws: Text) { forall h: nat :: Site(ws, h) ==> IsHead(ws, true, h) }

  // Every deleted branch is an instruction of its own, without a prefix.
  ghost predicate DeadOk(ws: Text) { forall h: nat :: Dead(ws, h) ==> IsHead(ws, true, h) }

  ghost predicate Clean(ws: Text) { FoldsOk(ws) && SitesOk(ws) && DeadOk(ws) }

  // Every register the code reads lies in the frame, the windows of calls included,
  // which the validator does not look at.
  ghost predicate Contained(ws: Text, maxRegs: nat) {
    forall p: nat, r :: IsHead(ws, true, p) && r in UsesAt(ws, p) ==> r < maxRegs
  }
}
