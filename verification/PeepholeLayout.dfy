/**
 Facts about instruction boundaries and about the index map of compaction, and the
 lockstep lemma: instructions that differ in nothing but a branch target have the same
 effect on frames that agree on what they read.
 */
module PeepholeLayout {
  import opened Words
  import opened Machine
  import opened Assembly
  import opened Simulation
  import opened PeepholeSpec

  // ---- walking ----------------------------------------------------------

  lemma {:induction false} WalkNext(ws: Text, merged: bool, from: nat, p: nat)
    requires from <= |ws| && Walk(ws, merged, from, p) && p < |ws|
    ensures Walk(ws, merged, from, p + Span(ws, p, merged))
    decreases |ws| - from
  {
    hide Span;
    if from == p {
      var q := from + Span(ws, from, merged);
      assert Walk(ws, merged, q, q);
    } else {
      WalkNext(ws, merged, from + Span(ws, from, merged), p);
    }
  }

  lemma StartsAt(ws: Text, merged: bool)
    ensures Walk(ws, merged, 0, 0)
  {
  }

  // Boundaries are a sequence apart.
  lemma {:induction false} WalkApart(ws: Text, merged: bool, from: nat, p: nat, q: nat)
    requires from <= |ws| && Walk(ws, merged, from, p) && Walk(ws, merged, from, q) && p < q && p < |ws|
    ensures p + Span(ws, p, merged) <= q
    decreases |ws| - from
  {
    hide Span;
    if from == p {
      WalkOrder(ws, merged, from + Span(ws, from, merged), q);
    } else {
      WalkApart(ws, merged, from + Span(ws, from, merged), p, q);
    }
  }

  lemma WalkOrder(ws: Text, merged: bool, from: nat, q: nat)
    requires from <= |ws| && Walk(ws, merged, from, q)
    ensures from <= q
  {
  }

  // Every word belongs to a sequence.
  lemma {:induction false} WalkOwner(ws: Text, merged: bool, from: nat, k: nat) returns (p: nat)
    requires from <= k < |ws|
    ensures Walk(ws, merged, from, p) && p <= k < p + Span(ws, p, merged) && p < |ws|
    decreases |ws| - from
  {
    hide Span;
    var next := from + Span(ws, from, merged);
    if k < next {
      p := from;
    } else {
      p := WalkOwner(ws, merged, next, k);
    }
  }

  // What starts an instruction starts a sequence.
  lemma {:induction false} MergedIsPlain(ws: Text, from: nat, p: nat)
    requires from <= |ws| && Walk(ws, true, from, p)
    ensures Walk(ws, false, from, p)
    decreases |ws| - from
  {
    if from != p {
      MergedIsPlain(ws, from + Span(ws, from, true), p);
      var w := WordWidth(ws, from);
      if Span(ws, from, true) != w {
        assert Span(ws, from, true) == 3 && w == 2;
        assert WordWidth(ws, from + 2) == 1;
        assert from + 2 < p by { WalkOrder(ws, true, from + 3, p); }
        assert Walk(ws, false, from + 2, p);
      }
    }
  }

  // The successor of an instruction determines it.
  lemma OnlyBefore(ws: Text, p: nat, q: nat)
    requires IsHead(ws, true, p) && IsHead(ws, true, q) && p + Span(ws, p, true) == q + Span(ws, q, true)
    ensures p == q
  {
    hide Span;
    if p < q { WalkApart(ws, true, 0, p, q); }
    if q < p { WalkApart(ws, true, 0, q, p); }
  }

  lemma NextPlace(ws: Text, p: nat)
    requires IsHead(ws, true, p)
    ensures Place(ws, p + Span(ws, p, true))
  {
    hide Span;
    WalkNext(ws, true, 0, p);
  }

  // Nothing strictly inside an instruction starts one.
  lemma Inside(ws: Text, p: nat, k: nat)
    requires IsHead(ws, true, p) && p < k < p + Span(ws, p, true)
    ensures !IsHead(ws, true, k) && !Place(ws, k)
  {
    hide Span;
    if Walk(ws, true, 0, k) { WalkApart(ws, true, 0, p, k); }
  }

  // ---- the index map ----------------------------------------------------

  lemma IndexZero(ws: Text)
    ensures Index(ws, 0) == 0
  {
  }

  lemma {:induction false} IndexMono(ws: Text, j: nat, k: nat)
    requires j <= k
    ensures Index(ws, j) <= Index(ws, k) <= Index(ws, j) + (k - j)
    decreases k
  {
    hide Deleted;
    if j < k { IndexMono(ws, j, k - 1); }
  }

  // The map is strict across kept words.
  lemma IndexStrict(ws: Text, j: nat, k: nat)
    requires j < k && !Deleted(ws, j)
    ensures Index(ws, j) < Index(ws, k)
  {
    hide Deleted;
    assert Index(ws, j + 1) == Index(ws, j) + 1;
    IndexMono(ws, j + 1, k);
  }

  lemma {:induction false} IndexRun(ws: Text, j: nat, k: nat)
    requires j <= k && forall i :: j <= i < k ==> !Deleted(ws, i)
    ensures Index(ws, k) == Index(ws, j) + (k - j)
    decreases k
  {
    hide Deleted;
    if j < k { IndexRun(ws, j, k - 1); }
  }

  lemma IndexDeleted(ws: Text, k: nat)
    requires Deleted(ws, k)
    ensures Index(ws, k + 1) == Index(ws, k)
  {
    hide Deleted;
  }

  lemma {:induction false} CompactedAt(ws: Text, n: nat, k: nat)
    requires k < n <= |ws| && !Deleted(ws, k)
    ensures Index(ws, k) < Index(ws, n) && Compacted(ws, n)[Index(ws, k)] == Remap(ws, Rewritten(ws, k))
    decreases n
  {
    hide Deleted; hide Remap; hide Rewritten;
    if k < n - 1 { CompactedAt(ws, n - 1, k); }
  }

  // Every word of the result comes from a kept word.
  lemma {:induction false} CompactedFrom(ws: Text, n: nat, i: nat) returns (k: nat)
    requires n <= |ws| && i < Index(ws, n)
    ensures k < n && !Deleted(ws, k) && Index(ws, k) == i
    decreases n
  {
    hide Deleted;
    if !Deleted(ws, n - 1) && i == Index(ws, n - 1) {
      k := n - 1;
    } else {
      k := CompactedFrom(ws, n - 1, i);
    }
  }

  // ---- lockstep ---------------------------------------------------------

  // The registers an instruction reads.
  function UsesOf(l: Logical): seq<nat>
    requires Decoded(l)
  {
    ShapeOf(l).uses
  }

  function UsesAt(ws: Text, pc: nat): seq<nat> {
    var l := Decode(ws, pc);
    if l.None? then [] else UsesOf(l.value)
  }

  // The same instruction, up to the target of a branch.
  ghost predicate SameButTarget(l: Logical, l': Logical) {
    if IsBranch(l.op) then l'.op == l.op && (IsCondJump(l.op) ==> l'.a == l.a)
    else l' == l
  }

  ghost predicate SameEffect(e: Effect, e': Effect, dead: set<nat>) {
    match e
    case Next(regs, tr) => e'.Next? && e'.tr == tr && AgreeOutside(regs, e'.regs, dead)
    case Goto(_) => e'.Goto?
    case Halt(v) => e' == Halt(v)
    case Raise(v, tr) => e' == Raise(v, tr)
    case Bad => e' == Bad
  }

  lemma Lockstep(code: Code, code': Code, host: Host, l: Logical, l': Logical, regs: Regs, regs': Regs, tr: Trace,
                 dead: set<nat>)
    requires Decoded(l) && Decoded(l') && SameButTarget(l, l') && code'.consts == code.consts
    requires AgreeOutside(regs, regs', dead) && forall r :: r in UsesOf(l) ==> r !in dead
    ensures SameEffect(Exec(code, host, l, regs, tr), Exec(code', host, l', regs', tr), dead)
    ensures var e := Exec(code, host, l, regs, tr);
            e.Goto? ==> IsBranch(l.op) && e.pc == BranchOf(l) && Exec(code', host, l', regs', tr).pc == BranchOf(l')
  {
    hide NarrowShape; hide WideShape; hide PureBinary; hide Instr.Imm24; hide Instr.Imm16; hide Instr.Raw;
    hide Instr.Lo; hide Signed64; hide AskHost;
    if l.op != WIDE { NarrowUses(l); }
    var sh := ShapeOf(l);
    assert Reads(regs, sh.uses) == Reads(regs', sh.uses);
    AskAgree(host, Request(sh.op, sh.imms, Reads(regs, sh.uses)), sh.write, regs, regs', tr, dead);
    AskAgree(host, Request(l.op, [], [Get(regs, l.b), Get(regs, l.c)]), Some(l.a), regs, regs', tr, dead);
  }

  lemma AskAgree(host: Host, req: Request, write: Option<nat>, regs: Regs, regs': Regs, tr: Trace, dead: set<nat>)
    requires AgreeOutside(regs, regs', dead)
    ensures SameEffect(AskHost(host, req, write, regs, tr), AskHost(host, req, write, regs', tr), dead)
    ensures !AskHost(host, req, write, regs, tr).Goto?
  {
  }

  function BranchOf(l: Logical): nat {
    if l.op == JUMP then l.word.Imm24() else l.word.Imm16()
  }

  // The operands that pure instructions read are among their uses.
  lemma NarrowUses(l: Logical)
    requires l.op != WIDE
    ensures var u := NarrowShape(l).uses;
            && (l.op == MOVE || l.op == NOT || IsBinary(l.op) ==> l.b in u)
            && (IsBinary(l.op) ==> l.c in u)
            && (IsCondJump(l.op) || l.op == RETURN || l.op == THROW ==> l.a in u)
  {
    if l.op == MOVE || l.op == NOT {
      assert l.b in NarrowShape(l).uses by {
        assert RolesOf(l.op) == Roles(Dst, Src, Unused);
        assert NarrowShape(l).uses[0] == l.b;
      }
    }
    if IsBinary(l.op) {
      assert l.b in NarrowShape(l).uses && l.c in NarrowShape(l).uses by {
        assert RolesOf(l.op) == Roles(Dst, Src, Src);
        assert NarrowShape(l).uses[0] == l.b && NarrowShape(l).uses[1] == l.c;
      }
    }
    if IsCondJump(l.op) || l.op == RETURN || l.op == THROW {
      assert l.a in NarrowShape(l).uses by {
        assert RolesOf(l.op).a == Src;
        assert NarrowShape(l).uses[0] == l.a;
      }
    }
  }
}
