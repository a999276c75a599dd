/**
 What the listing of a unit says about its assembled code: branches and handlers go to
 instructions, operands are in range, and the literals arithmetic is folded from are
 used once.  This is what the peephole pass and the validator rely on.
 */
module ListedCode {
  import opened Words
  import opened Machine
  import opened Assembly
  import opened Source
  import opened Lowering
  import opened Growth
  import opened Steps
  import opened ExprCorrect
  import opened StmtFrame
  import opened ForOfFrame
  import opened PeepholeSpec
  import opened PeepholeLayout
  import opened PeepholeSafe
  import opened Listing
  import opened ListingSteps
  import opened ListedStmts
  import opened Validator
  import opened PeepholeSimple

  // ---- places in the listing --------------------------------------------

  lemma OffNext(os: Ops, k: nat)
    requires k < |os|
    ensures Off(os, k + 1) == Off(os, k) + |ItemsOf(os[k])|
  {
    hide ItemsOf;
    assert os[..k + 1] == os[..k] + [os[k]];
    ItemsSnoc(os[..k], os[k]);
  }

  lemma {:induction false} OffMono(os: Ops, j: nat, k: nat)
    requires j <= k <= |os|
    ensures Off(os, j) <= Off(os, k)
    decreases k
  {
    hide Items;
    if j < k {
      OffMono(os, j, k - 1);
      OffNext(os, k - 1);
    }
  }

  lemma OffEnds(os: Ops)
    ensures Off(os, 0) == 0 && Off(os, |os|) == |Items(os)|
  {
    assert os[..0] == [] && os[..|os|] == os;
  }

  lemma Wordy(o: Op)
    requires !o.Mark?
    ensures |ItemsOf(o)| >= 1
  {
  }

  // An instruction starts behind everything listed before it.
  lemma OffStrict(os: Ops, j: nat, k: nat)
    requires j < k <= |os| && !os[j].Mark?
    ensures Off(os, j) < Off(os, k)
  {
    hide Items; hide ItemsOf;
    OffNext(os, j);
    Wordy(os[j]);
    OffMono(os, j + 1, k);
  }

  // Every word belongs to some element.
  lemma {:induction false} OwnerOf(os: Ops, p: nat, n: nat) returns (k: nat)
    requires n <= |os| && p < Off(os, n)
    ensures k < n && Off(os, k) <= p < Off(os, k + 1) && !os[k].Mark?
    decreases n
  {
    hide Items; hide ItemsOf;
    if n == 0 {
      OffEnds(os);
      assert false;
    } else if Off(os, n - 1) <= p {
      k := n - 1;
      OffNext(os, k);
      assert os[k].Mark? ==> |ItemsOf(os[k])| == 0 by { NoWords(os[k]); }
    } else {
      k := OwnerOf(os, p, n - 1);
    }
  }

  lemma NoWords(o: Op)
    ensures o.Mark? ==> |ItemsOf(o)| == 0
  {
  }

  // ---- the code of a listing --------------------------------------------

  // ws is the code assembled from F, whose listing is os.
  ghost predicate Coded(F: Ctx, os: Ops, ws: Text, base: nat) {
    && F.items == Items(os) && ws == ResolveAll(F.items, F.labels) && |ws| < 0x1_0000
    && OpsOk(os, Scope(base, base + 1, F.top, {}), |F.consts|) && Frugal(os)
    && base < F.top <= MAX_REGS && |F.consts| <= MAX_CONSTANTS
    && (forall l :: 0 <= l < |F.labels| && F.labels[l].Some? ==> MarkedAt(os, 0, F.labels[l].value))
    && (forall j :: 0 <= j < |F.handlers| ==>
          F.handlers[j].start <= |ws| && F.handlers[j].end <= |ws| && MarkedAt(os, 0, F.handlers[j].target))
  }

  function CodeScope(F: Ctx, base: nat): Scope { Scope(base, base + 1, F.top, {}) }

  lemma UnitCoded(lay: Layout, F: Ctx, os: Ops)
    requires Region(NewCtx(lay), F, os, lay.localsEnd, {}) && |F.items| < 0x1_0000
    ensures Coded(F, os, Assemble(F).instrs, lay.localsEnd)
  {
    hide Frugal; hide OpsOk; hide MarkedAt; hide Items; hide ResolveAll;
  }

  // Element k in the code: its words, resolved.
  lemma WordOf(F: Ctx, os: Ops, ws: Text, base: nat, k: nat, i: nat)
    requires Coded(F, os, ws, base) && k < |os| && i < |ItemsOf(os[k])|
    ensures Off(os, k) + i < |ws| && ws[Off(os, k) + i] == Resolve(ItemsOf(os[k])[i], F.labels)
  {
    hide Items; hide ItemsOf; hide OpsOk; hide Frugal; hide MarkedAt; hide Resolve;
    assert Off(os, k) + i < |Items(os)| && Items(os)[Off(os, k) + i] == ItemsOf(os[k])[i] by {
      OffNext(os, k);
      var (init, rest) := (os[..k + 1], os[k + 1..]);
      assert os == init + rest && init == os[..k] + [os[k]];
      ItemsCat(init, rest);
      ItemsSnoc(os[..k], os[k]);
    }
  }

  lemma OpAt(F: Ctx, os: Ops, ws: Text, base: nat, k: nat)
    requires Coded(F, os, ws, base) && k < |os|
    ensures OpOk(os[k], CodeScope(F, base), |F.consts|) && base < F.top <= MAX_REGS
  {
    hide Items; hide OpOk; hide Frugal; hide MarkedAt; hide ResolveAll;
  }

  // Where a label leads.
  function Goal(F: Ctx, l: nat): nat { Assembly.Target(F.labels, l) }

  // The instruction element k decodes to.
  ghost predicate Reads(F: Ctx, o: Op, l: Logical) {
    && l.width == |ItemsOf(o)| && Decoded(l)
    && match o
       case Reg(op, x, y, z, _) => l == Logical(op, x, y, z, l.width, LastWord(op, x, y, z), [])
       case IntW(dst, _) => l.op == WIDE && l.word.c == LOAD_INT_W && |l.payload| == 3 && l.payload[2].Lo() == dst
       case CallW(dst, callee, argc) =>
         l.op == WIDE && l.word.c == CALL_W && |l.payload| == 2
         && l.payload[0].Hi() == dst && l.payload[0].Lo() == callee && l.payload[1].Lo() == argc
       case Jump(op, reg, lab) =>
         l.op == op && l.word.op == op && (op != JUMP ==> l.a == reg) && BranchOf(l) == Goal(F, lab)
       case Mark => false
  }

  // What the bounds on element k say about its encoding.
  lemma Encodable(F: Ctx, os: Ops, ws: Text, base: nat, k: nat)
    requires Coded(F, os, ws, base) && k < |os|
    ensures match os[k]
            case Reg(op, x, y, z, mask) => Lowered(op) && FitsMask(x, y, z, mask)
            case IntW(dst, _) => dst < 0x1_0000
            case CallW(dst, callee, argc) => dst < 0x1_0000 && callee < 0x1_0000 && argc < 0x1_0000
            case Jump(op, reg, _) => IsBranch(op) && reg < 0x1_0000
            case Mark => true
  {
    hide Coded; hide Uses; hide Writes; hide Lowered; hide FitsMask;
    OpAt(F, os, ws, base, k);
  }

  lemma DecodeCallW(F: Ctx, os: Ops, ws: Text, base: nat, k: nat)
    requires Coded(F, os, ws, base) && k < |os| && os[k].CallW?
    ensures Decode(ws, Off(os, k)).Some? && Reads(F, os[k], Decode(ws, Off(os, k)).value)
  {
    hide Items; hide Coded; hide Instr.Lo; hide Instr.Hi; hide Instr.Raw;
    var o := os[k];
    var p := Off(os, k);
    Encodable(F, os, ws, base, k);
    WordOf(F, os, ws, base, k, 0); WordOf(F, os, ws, base, k, 1); WordOf(F, os, ws, base, k, 2);
    var l := Decode(ws, p).value;
    assert l.payload == ws[p + 1..p + 3];
    assert l.payload[0] == ws[p + 1] == OfHiLo(o.dst % 0x1_0000, o.callee % 0x1_0000);
    assert l.payload[1] == ws[p + 2] == OfHiLo(0, o.argc % 0x1_0000);
  }

  lemma GoalSmall(F: Ctx, os: Ops, ws: Text, base: nat, l: nat)
    requires Coded(F, os, ws, base)
    ensures Goal(F, l) <= |ws| < 0x1_0000 && (Goal(F, l) == 0 || MarkedAt(os, 0, Goal(F, l)))
  {
    hide Items; hide OpsOk; hide Frugal; hide ResolveAll;
    if l < |F.labels| && F.labels[l].Some? {
      var k :| 0 <= k < |os| && os[k].Mark? && F.labels[l].value == 0 + Off(os, k);
      OffMono(os, k, |os|);
      OffEnds(os);
    }
  }

  lemma DecodeJump(F: Ctx, os: Ops, ws: Text, base: nat, k: nat)
    requires Coded(F, os, ws, base) && k < |os| && os[k].Jump?
    ensures Decode(ws, Off(os, k)).Some? && Reads(F, os[k], Decode(ws, Off(os, k)).value)
  {
    hide Items; hide MarkedAt; hide Coded; hide Patch; hide Instr.Imm24; hide Instr.Imm16;
    var o := os[k];
    var p := Off(os, k);
    Encodable(F, os, ws, base, k);
    GoalSmall(F, os, ws, base, o.lab);
    PatchedBranch(o.op, Low8(o.reg), Goal(F, o.lab));
    WordOf(F, os, ws, base, k, 0);
    if o.reg > 255 {
      WordOf(F, os, ws, base, k, 1);
      WordOf(F, os, ws, base, k, 2);
      MergeBack(1, 0, o.reg);
    }
  }

  lemma DecodeAt(F: Ctx, os: Ops, ws: Text, base: nat, k: nat)
    requires Coded(F, os, ws, base) && k < |os| && !os[k].Mark?
    ensures Decode(ws, Off(os, k)).Some? && Reads(F, os[k], Decode(ws, Off(os, k)).value)
    ensures Off(os, k) < |ws|
  {
    hide Items; hide Coded;
    match os[k]
    case Reg(_, _, _, _, _) =>
      assert Decode(ws, Off(os, k)).Some? && Reads(F, os[k], Decode(ws, Off(os, k)).value) by {
        var o := os[k];
        var enc := EncodeRegs(o.op, o.x, o.y, o.z, o.mask);
        var p := Off(os, k);
        Encodable(F, os, ws, base, k);
        EncodedNonempty(o.op, o.x, o.y, o.z, o.mask);
        forall i | 0 <= i < |enc| ensures p + i < |ws| && ws[p + i] == enc[i] { WordOf(F, os, ws, base, k, i); }
        WordOf(F, os, ws, base, k, |enc| - 1);
        DecodeEncoded(ws, p, o.op, o.x, o.y, o.z, o.mask);
      }
    case IntW(_, _) =>
      assert Decode(ws, Off(os, k)).Some? && Reads(F, os[k], Decode(ws, Off(os, k)).value) by {
        var o := os[k];
        var p := Off(os, k);
        Encodable(F, os, ws, base, k);
        WordOf(F, os, ws, base, k, 0); WordOf(F, os, ws, base, k, 1); WordOf(F, os, ws, base, k, 2);
        WordOf(F, os, ws, base, k, 3);
        var l := Decode(ws, p).value;
        assert l.payload == ws[p + 1..p + 4] && l.payload[2] == ws[p + 3] == OfHiLo(0, o.dst % 0x1_0000);
      }
    case CallW(_, _, _) => DecodeCallW(F, os, ws, base, k);
    case Jump(_, _, _) => DecodeJump(F, os, ws, base, k);
  }

  // ---- boundaries -------------------------------------------------------

  lemma {:induction false} WalkTo(F: Ctx, os: Ops, ws: Text, base: nat, k: nat)
    requires Coded(F, os, ws, base) && k <= |os|
    ensures Place(ws, Off(os, k))
    decreases k
  {
    hide Items; hide Coded; hide Decode; hide Reads; hide ItemsOf; hide Walk;
    if k == 0 {
      OffEnds(os);
      StartsAt(ws, true);
    } else {
      WalkTo(F, os, ws, base, k - 1);
      OffNext(os, k - 1);
      NoWords(os[k - 1]);
      if !os[k - 1].Mark? {
        DecodeAt(F, os, ws, base, k - 1);
        WidthRead(F, os[k - 1], ws, Off(os, k - 1));
        NextPlace(ws, Off(os, k - 1));
      }
    }
  }

  lemma WidthRead(F: Ctx, o: Op, ws: Text, p: nat)
    requires p < |ws| && Decode(ws, p).Some? && Reads(F, o, Decode(ws, p).value)
    ensures Span(ws, p, true) == |ItemsOf(o)|
  {
    hide Decode; hide ItemsOf;
  }

  // Instructions of the code are elements of the listing.
  lemma HeadOf(F: Ctx, os: Ops, ws: Text, base: nat, p: nat) returns (k: nat)
    requires Coded(F, os, ws, base) && IsHead(ws, true, p)
    ensures k < |os| && !os[k].Mark? && Off(os, k) == p
  {
    hide Items; hide Decode; hide Reads; hide ItemsOf; hide Walk; hide MarkedAt; hide OpsOk; hide Frugal;
    OffEnds(os);
    assert |ws| == |Items(os)|;
    hide Coded;
    k := OwnerOf(os, p, |os|);
    WalkTo(F, os, ws, base, k);
    DecodeAt(F, os, ws, base, k);
    WidthRead(F, os[k], ws, Off(os, k));
    OffNext(os, k);
    if Off(os, k) < p { WalkApart(ws, true, 0, Off(os, k), p); }
  }

  lemma MarkPlace(F: Ctx, os: Ops, ws: Text, base: nat, pos: nat)
    requires Coded(F, os, ws, base) && MarkedAt(os, 0, pos)
    ensures Place(ws, pos)
  {
    hide Items; hide Coded; hide Walk;
    var k :| 0 <= k < |os| && os[k].Mark? && pos == 0 + Off(os, k);
    WalkTo(F, os, ws, base, k);
  }

  // ---- branches and handlers --------------------------------------------

  // A word that reads as a branch is one, unless it is payload.
  lemma BranchOwner(F: Ctx, os: Ops, ws: Text, base: nat, p: nat) returns (k: nat)
    requires Coded(F, os, ws, base) && PayloadOk(ws) && p < |ws| && IsBranch(ws[p].op)
    ensures k < |os| && os[k].Jump? && BranchTarget(ws[p]) == Goal(F, os[k].lab)
  {
    hide Items; hide Coded; hide WordWidth;
    hide Instr.Imm24; hide Instr.Imm16;
    k := OwnerWord(F, os, ws, base, p);
    var h := Off(os, k);
    WalkTo(F, os, ws, base, k);
    DecodeAt(F, os, ws, base, k);
    WidthRead(F, os[k], ws, h);
    NotPayload(ws, h, p);
    assert os[k].Jump? && BranchTarget(ws[p]) == Goal(F, os[k].lab) by {
      var h := Off(os, k);
      Encodable(F, os, ws, base, k);
      WordOf(F, os, ws, base, k, p - h);
      WordOf(F, os, ws, base, k, 0);
      if os[k].Jump? {
        GoalSmall(F, os, ws, base, os[k].lab);
        PatchedBranch(os[k].op, Low8(os[k].reg), Goal(F, os[k].lab));
      }
    }
  }

  lemma OwnerWord(F: Ctx, os: Ops, ws: Text, base: nat, p: nat) returns (k: nat)
    requires Coded(F, os, ws, base) && p < |ws|
    ensures k < |os| && Off(os, k) <= p < Off(os, k + 1) && !os[k].Mark?
            && Off(os, k + 1) == Off(os, k) + |ItemsOf(os[k])|
  {
    hide Items; hide ItemsOf; hide OpsOk; hide Frugal; hide MarkedAt;
    OffEnds(os);
    k := OwnerOf(os, p, |os|);
    OffNext(os, k);
  }

  lemma NotPayload(ws: Text, h: nat, p: nat)
    requires PayloadOk(ws) && IsHead(ws, true, h) && h <= p < h + Span(ws, h, true) && p < |ws| && IsBranch(ws[p].op)
    ensures p == h || (p == h + 2 && Span(ws, h, true) == 3 && WordWidth(ws, h) == 2)
  {
    hide Walk;
  }

  // Sorting puts the handlers in order.
  lemma {:induction false} InsertSorted(h: Handler, hs: seq<Handler>)
    requires forall i, j :: 0 <= i < j < |hs| ==> hs[i].start <= hs[j].start
    ensures forall i, j :: 0 <= i < j < |Insert(h, hs)| ==> Insert(h, hs)[i].start <= Insert(h, hs)[j].start
    decreases |hs|
  {
    if !(hs == [] || Before(h, hs[0])) {
      InsertSorted(h, hs[1..]);
      var rest := Insert(h, hs[1..]);
      forall j | 0 <= j < |rest| ensures hs[0].start <= rest[j].start {
        ForOfFrame.InsertElements(h, hs[1..], rest[j]);
        assert rest[j] in rest;
      }
    }
  }

  lemma {:induction false} SortSorted(hs: seq<Handler>)
    ensures forall i, j :: 0 <= i < j < |SortHandlers(hs)| ==> SortHandlers(hs)[i].start <= SortHandlers(hs)[j].start
    decreases |hs|
  {
    if hs != [] {
      SortSorted(hs[1..]);
      InsertSorted(hs[0], SortHandlers(hs[1..]));
    }
  }

  lemma HandlersHold(F: Ctx, os: Ops, ws: Text, base: nat)
    requires Coded(F, os, ws, base)
    ensures HandlersOk(ws, SortHandlers(F.handlers))
    ensures forall i :: 0 <= i < |SortHandlers(F.handlers)| ==> MarkedAt(os, 0, SortHandlers(F.handlers)[i].target)
  {
    hide Items; hide Walk; hide MarkedAt; hide OpsOk; hide Frugal; hide ResolveAll;
    var hs := SortHandlers(F.handlers);
    SortSorted(F.handlers);
    forall i | 0 <= i < |hs|
      ensures hs[i].start <= |ws| && hs[i].end <= |ws| && Place(ws, hs[i].target) && MarkedAt(os, 0, hs[i].target)
    {
      SortElements(F.handlers, hs[i]);
      var j :| 0 <= j < |F.handlers| && F.handlers[j] == hs[i];
      MarkPlace(F, os, ws, base, hs[i].target);
    }
  }

  // ---- literals are used once -------------------------------------------

  // What an instruction reads is what its element reads.
  lemma UsesRead(F: Ctx, o: Op, l: Logical)
    requires Reads(F, o, l) && (o.Reg? ==> Lowered(o.op)) && (o.Jump? ==> IsBranch(o.op))
    ensures UsesOf(l) == Uses(o) && ShapeOf(l).write == Writes(o)
  {
    match o
    case Reg(op, x, y, z, mask) =>
    case IntW(_, _) =>
    case CallW(_, _, _) =>
      assert var sh := WideShape(l.word.c, l.payload);
             && sh.uses == Window(l.payload[0].Lo(), CALL_HEADER_REGS + l.payload[1].Lo())
             && sh.write == Some(l.payload[0].Hi());
    case Jump(_, _, _) => JumpUses(l);
  }

  lemma JumpUses(l: Logical)
    requires IsBranch(l.op)
    ensures NarrowShape(l).uses == (if l.op == JUMP then [] else [l.a]) && NarrowShape(l).write == None
  {
    assert RolesOf(l.op).b.Imm? && RolesOf(l.op).c.Imm?;
  }

  lemma UsesAtOp(F: Ctx, os: Ops, ws: Text, base: nat, k: nat)
    requires Coded(F, os, ws, base) && k < |os| && !os[k].Mark?
    ensures UsesAt(ws, Off(os, k)) == Uses(os[k])
  {
    hide Coded; hide Items; hide Reads; hide Decode; hide Uses; hide Writes; hide Lowered;
    DecodeAt(F, os, ws, base, k);
    Encodable(F, os, ws, base, k);
    ReadsDecoded(F, os[k], Decode(ws, Off(os, k)).value);
    UsesRead(F, os[k], Decode(ws, Off(os, k)).value);
  }

  lemma ReadsDecoded(F: Ctx, o: Op, l: Logical)
    requires Reads(F, o, l)
    ensures Decoded(l)
  {
  }

  // A word that folding or branch deletion could touch, at the start of an element, is
  // the whole element, and a quiet one.
  lemma VolatileOp(F: Ctx, os: Ops, ws: Text, base: nat, k: nat)
    requires Coded(F, os, ws, base) && k < |os| && !os[k].Mark? && Off(os, k) < |ws| && Volatile(ws[Off(os, k)].op)
    ensures Quiet(os[k]) && OneWord(os[k])
    ensures Producer(ws[Off(os, k)].op) ==> Produces(os[k]) && os[k].x == ws[Off(os, k)].a
    ensures IsFoldable(ws[Off(os, k)].op) ==> Folds(os[k]) && os[k].y == ws[Off(os, k)].b && os[k].z == ws[Off(os, k)].c
  {
    hide Items; hide Coded; hide Patch; hide Instr.Imm24; hide Instr.Imm16; hide Reads;
    Encodable(F, os, ws, base, k);
    WordOf(F, os, ws, base, k, 0) by { hide ItemsOf; Wordy(os[k]); }
    if os[k].Jump? {
      PatchedBranch(os[k].op, Low8(os[k].reg), 0); PatchOp(os[k].op, Low8(os[k].reg), Goal(F, os[k].lab)); }
  }

  lemma PatchOp(op: Opcode, reg: Byte, pc: nat)
    ensures Patch(Placeholder(op, reg), op == JUMP, pc).op == op
  {
  }

  // From an instruction on, volatile words are instructions.
  lemma {:induction false} VolatileHeads(ws: Text, m: nat, p: nat)
    requires IsHead(ws, true, m) && m <= p < |ws| && forall k :: m <= k < p ==> Volatile(ws[k].op)
    ensures IsHead(ws, true, p)
    decreases p
  {
    hide Walk;
    if m < p {
      VolatileHeads(ws, m, p - 1);
      assert Span(ws, p - 1, true) == 1;
      NextPlace(ws, p - 1);
    }
  }

  // Feeding in the code is feeding in the listing.
  lemma FedListed(F: Ctx, os: Ops, ws: Text, base: nat, p1: nat, p2: nat, q: nat) returns (i1: nat, i2: nat, j: nat)
    requires Coded(F, os, ws, base) && Feeds(ws, p1, p2, q)
    ensures Fed(os, i1, i2, j) && Off(os, i1) == p1 && Off(os, i2) == p2 && Off(os, j) == q
    ensures os[j].y == ws[q].b && os[j].z == ws[q].c
  {
    var m := Min(p1, p2);
    VolatileHeads(ws, m, p1); VolatileHeads(ws, m, p2); VolatileHeads(ws, m, q);
    i1 := HeadOf(F, os, ws, base, p1);
    i2 := HeadOf(F, os, ws, base, p2);
    j := HeadOf(F, os, ws, base, q);
    VolatileOp(F, os, ws, base, i1); VolatileOp(F, os, ws, base, i2); VolatileOp(F, os, ws, base, j);
    if j <= i1 { OffMono(os, j, i1); }
    if j <= i2 { OffMono(os, j, i2); }
    forall k | i1 <= k < j || i2 <= k < j ensures Quiet(os[k]) {
      if !os[k].Mark? {
        assert Quiet(os[k]) by {
          OffMono(os, (if i1 <= k then i1 else i2), k);
          OffStrict(os, k, j);
          VolatileOp(F, os, ws, base, k);
        }
      }
    }
  }

  // No control enters between the producers and the arithmetic.
  lemma NoEntryListed(F: Ctx, os: Ops, ws: Text, base: nat, i1: nat, i2: nat, j: nat, t: nat)
    requires Coded(F, os, ws, base) && PayloadOk(ws) && Fed(os, i1, i2, j) && Unmarked(os, i1, i2, j)
    requires Min(Off(os, i1), Off(os, i2)) < t <= Off(os, j)
    ensures !Targeted(Code(ws, F.consts, SortHandlers(F.handlers)), t)
  {
    hide Items;

    var c := Code(ws, F.consts, SortHandlers(F.handlers));
    assert !MarkedAt(os, 0, t) by {
      if MarkedAt(os, 0, t) {
        var k: nat :| 0 <= k < |os| && os[k].Mark? && t == 0 + Off(os, k);
        if k <= i1 { OffMono(os, k, i1); }
        if k <= i2 { OffMono(os, k, i2); }
        if j < k { OffStrict(os, j, k); }
      }
    }
    forall p | 0 <= p < |ws| && IsBranch(ws[p].op) ensures BranchTarget(ws[p]) != t {
      var k := BranchOwner(F, os, ws, base, p);
      GoalSmall(F, os, ws, base, os[k].lab);
    }
    HandlersHold(F, os, ws, base);
  }

  // The operands of folded arithmetic are used once, and control enters in front only.
  lemma DisciplinedHolds(F: Ctx, os: Ops, ws: Text, base: nat)
    requires Coded(F, os, ws, base) && PayloadOk(ws)
    ensures Disciplined(Code(ws, F.consts, SortHandlers(F.handlers)))
  {
    var c := Code(ws, F.consts, SortHandlers(F.handlers));
    forall p1: nat, p2: nat, q: nat | Feeds(ws, p1, p2, q) ensures SingleUse(c, q) && NoEntry(c, Min(p1, p2), q) {
      assert var c := Code(ws, F.consts, SortHandlers(F.handlers)); SingleUse(c, q) && NoEntry(c, Min(p1, p2), q) by {
        var c := Code(ws, F.consts, SortHandlers(F.handlers));
        var i1, i2, j := FedListed(F, os, ws, base, p1, p2, q);
        assert ReadOnce(os, j) && Unmarked(os, i1, i2, j) && j < |os| && os[j].Reg? && os[j].y != os[j].z by {
          OperandsOk(os, CodeScope(F, base), |F.consts|, j);
        }
        forall r: nat | IsHead(ws, true, r) && r != q ensures ws[q].b !in UsesAt(ws, r) && ws[q].c !in UsesAt(ws, r) {
          var k := HeadOf(F, os, ws, base, r);
          UsesAtOp(F, os, ws, base, k);
        }
        forall t: nat | Min(p1, p2) < t <= q ensures !Targeted(c, t) {
          NoEntryListed(F, os, ws, base, i1, i2, j, t);
        }
      }
    }
  }

  // ---- operands ---------------------------------------------------------

  lemma RegAccepted(o: Op, sc: Scope, pool: nat, l: Logical, envs: EnvStack, end: nat, maxRegs: nat)
    requires o.Reg? && OpOk(o, sc, pool)
             && l == Logical(o.op, o.x, o.y, o.z, l.width, LastWord(o.op, o.x, o.y, o.z), [])
    requires sc.ins == {} && sc.base < sc.hi <= maxRegs
    ensures LogicalOk(l, envs, end, pool, maxRegs)
  {
    hide EnvsAfter; hide FitsMask; hide Instr.Imm16; hide Instr.Imm24;
    RegShape(o.op, o.x, o.y, o.z, o.mask);
    LoweredRoles(o.op);
    LoweredPlain(o.op);
    hide Uses; hide Writes; hide RolesOf; hide Lowered;
    assert RegistersOk(l, maxRegs) by { RegRegisters(o, sc, pool, l, maxRegs); }
    assert FlagsOk(l) by { RegFlags(o, l); }
    if o.op == LOAD_CONST { ConstWord(o.x, o.y, o.z); }
  }

  lemma LoweredPlain(op: Opcode)
    requires Lowered(op)
    ensures op != WIDE && op != NEW_ARRAY && op != DEFINE_ACCESSOR && op != DEFINE_ACCESSOR_ENUMERABLE
            && op != GET_ENV_SLOT && op != SET_ENV_SLOT && !IsBranch(op)
  {
  }

  lemma RegFlags(o: Op, l: Logical)
    requires o.Reg? && Lowered(o.op) && (o.op == ITERATOR_CLOSE ==> o.y <= 1)
    requires l == Logical(o.op, o.x, o.y, o.z, l.width, LastWord(o.op, o.x, o.y, o.z), [])
    ensures FlagsOk(l)
  {
    LoweredRoles(o.op);
    hide RolesOf; hide Lowered;
    assert RoleAt(l.op, 0) == RolesOf(l.op).a && RoleAt(l.op, 1) == RolesOf(l.op).b
      && RoleAt(l.op, 2) == RolesOf(l.op).c;
    assert ByteAt(l.word, 1) == Low8(o.y);
  }

  lemma OpInRange(o: Op, sc: Scope, pool: nat, maxRegs: nat)
    requires OpOk(o, sc, pool) && sc.ins == {} && sc.base < sc.hi <= maxRegs
    ensures forall r :: r in Uses(o) ==> r < maxRegs
    ensures Writes(o).Some? ==> Writes(o).value < maxRegs
    ensures o.Reg? ==> Lowered(o.op) && Padded(o.op, o.x, o.y, o.z)
    ensures o.Jump? ==> IsBranch(o.op) && (o.op == JUMP ==> o.reg == 0)
  {
    hide Uses; hide Writes; hide Lowered; hide FitsMask; hide Padded; hide Produces; hide Folds;
  }

  lemma RegRegisters(o: Op, sc: Scope, pool: nat, l: Logical, maxRegs: nat)
    requires o.Reg? && OpOk(o, sc, pool) && l == Logical(o.op, o.x, o.y, o.z, l.width, l.word, [])
    requires sc.ins == {} && sc.base < sc.hi <= maxRegs
    ensures RegistersOk(l, maxRegs)
  {
    hide Uses; hide Writes; hide RolesOf; hide Lowered; hide OpOk;
    OpInRange(o, sc, pool, maxRegs);
    RegShape(o.op, o.x, o.y, o.z, o.mask);
    LoweredRoles(o.op);
    assert Operand(l, 0) == o.x && Operand(l, 1) == o.y && Operand(l, 2) == o.z;
    assert RoleAt(l.op, 0) == RolesOf(l.op).a && RoleAt(l.op, 1) == RolesOf(l.op).b
      && RoleAt(l.op, 2) == RolesOf(l.op).c;
    var u := Uses(o);
    if o.op == LOAD_CONST || o.op == LOAD_INT || o.op == LOOP_HEADER {
    } else if o.op == CALL || o.op == RETURN || o.op == THROW || o.op == ITERATOR_CLOSE {
      assert u[0] in u;
    } else {
      assert u[0] in u && u[|u| - 1] in u;
    }
  }

  lemma WideAccepted(F: Ctx, o: Op, sc: Scope, pool: nat, l: Logical, envs: EnvStack, end: nat, maxRegs: nat)
    requires (o.IntW? || o.CallW?) && OpOk(o, sc, pool) && Reads(F, o, l) && sc.ins == {} && sc.base < sc.hi <= maxRegs
    ensures LogicalOk(l, envs, end, pool, maxRegs)
  {
    hide EnvsAfter; hide Instr.Hi; hide Instr.Lo; hide Instr.Raw; hide ItemsOf;
    if o.CallW? { assert Uses(o)[0] == o.callee && o.callee in Uses(o); }
  }

  lemma JumpAccepted(F: Ctx, o: Op, sc: Scope, pool: nat, l: Logical, envs: EnvStack, end: nat, maxRegs: nat)
    requires o.Jump? && OpOk(o, sc, pool) && Reads(F, o, l) && sc.ins == {} && sc.base < sc.hi <= maxRegs
             && Goal(F, o.lab) <= end
    ensures LogicalOk(l, envs, end, pool, maxRegs)
  {
    hide EnvsAfter; hide ItemsOf; hide Goal; hide BranchOf;
    assert RolesOf(l.op).b.Imm? && RolesOf(l.op).c.Imm?;
    assert o.op != JUMP ==> Uses(o)[0] == o.reg && o.reg in Uses(o);
    assert RoleAt(l.op, 0) == RolesOf(l.op).a && RoleAt(l.op, 1).Imm? && RoleAt(l.op, 2).Imm?;
    assert Operand(l, 0) == l.a;
  }

  lemma InstrAccepted(F: Ctx, os: Ops, ws: Text, base: nat, k: nat, envs: EnvStack, maxRegs: nat)
    requires Coded(F, os, ws, base) && F.top <= maxRegs && k < |os| && !os[k].Mark?
    ensures InstrOk(ws, Off(os, k), envs, |F.consts|, maxRegs)
  {
    DecodeAt(F, os, ws, base, k);
    OpAt(F, os, ws, base, k);
    var l := Decode(ws, Off(os, k)).value;
    ReadsDecoded(F, os[k], l);
    var sc := CodeScope(F, base);
    match os[k]
    case Reg(_, _, _, _, _) =>

      RegAccepted(os[k], sc, |F.consts|, l, envs, |ws|, maxRegs);
    case IntW(_, _) => WideAccepted(F, os[k], sc, |F.consts|, l, envs, |ws|, maxRegs);
    case CallW(_, _, _) => WideAccepted(F, os[k], sc, |F.consts|, l, envs, |ws|, maxRegs);
    case Jump(_, _, lab) =>
      GoalSmall(F, os, ws, base, lab);
      JumpAccepted(F, os[k], sc, |F.consts|, l, envs, |ws|, maxRegs);
  }

  // ---- whole units ------------------------------------------------------

  // The code of every unit has its branches and handlers on instructions and its folded
  // literals used once, unless one of its payload words reads as a branch.
  lemma UnitStable(lay: Layout, body: Stmts)
    requires WfLayout(lay) && WfStmts(lay, body) && !CompUnit(lay, body).failed
             && |CompUnit(lay, body).items| < 0x1_0000
    requires PayloadOk(Assemble(CompUnit(lay, body)).instrs)
    ensures Stable(Assemble(CompUnit(lay, body)))
  {
    hide Coded; hide PayloadOk;

    var F := CompUnit(lay, body);
    var ws := Assemble(F).instrs;
    var os := ListUnit(lay, body);
    UnitCoded(lay, F, os);
    assert TargetsOk(ws) by {
      forall p | 0 <= p < |ws| && IsBranch(ws[p].op) ensures Place(ws, BranchTarget(ws[p])) {
        var k := BranchOwner(F, os, ws, lay.localsEnd, p);
        GoalSmall(F, os, ws, lay.localsEnd, os[k].lab);
        if Goal(F, os[k].lab) == 0 { StartsAt(ws, true); }
          else { MarkPlace(F, os, ws, lay.localsEnd, Goal(F, os[k].lab)); }
      }
    }
    HandlersHold(F, os, ws, lay.localsEnd);
    DisciplinedHolds(F, os, ws, lay.localsEnd);
  }

  // And the validator accepts it, with any budget above the temporaries.
  lemma UnitAccepted(lay: Layout, body: Stmts, maxRegs: nat)
    requires WfLayout(lay) && WfStmts(lay, body) && !CompUnit(lay, body).failed
             && |CompUnit(lay, body).items| < 0x1_0000
    requires CompUnit(lay, body).high <= maxRegs
    ensures Accepts(Assemble(CompUnit(lay, body)).instrs, |CompUnit(lay, body).consts|, maxRegs)
  {
    hide Coded;
    var F := CompUnit(lay, body);
    var os := ListUnit(lay, body);
    assert F.top <= F.high;
    UnitCoded(lay, F, os);
    var ws := Assemble(F).instrs;
    forall p: nat | p < |ws| && IsHead(ws, true, p) ensures InstrOk(ws, p, EnvsAt(ws, 0, [], p), |F.consts|, maxRegs) {
      var k := HeadOf(F, os, ws, lay.localsEnd, p);
      InstrAccepted(F, os, ws, lay.localsEnd, k, EnvsAt(ws, 0, [], p), maxRegs);
    }
  }

  // Every register the code of a unit reads is a local or a temporary of its own, and so
  // below its high-water mark; header and arguments of calls included.
  lemma UnitContained(lay: Layout, body: Stmts, maxRegs: nat)
    requires WfLayout(lay) && WfStmts(lay, body) && !CompUnit(lay, body).failed
             && |CompUnit(lay, body).items| < 0x1_0000
    requires CompUnit(lay, body).high <= maxRegs
    ensures Contained(Assemble(CompUnit(lay, body)).instrs, maxRegs)
  {
    hide Coded; hide CompUnit; hide WfStmts; hide Placed; hide OpsOk; hide Frugal; hide Walk; hide UsesAt; hide OpOk;
    var F := CompUnit(lay, body);
    var ws := Assemble(F).instrs;
    var os := ListUnit(lay, body);
    UnitCoded(lay, F, os);
    assert lay.localsEnd < F.top <= F.high;
    forall p: nat, r | IsHead(ws, true, p) && r in UsesAt(ws, p) ensures r < maxRegs {
      var k := HeadOf(F, os, ws, lay.localsEnd, p);
      UsesAtOp(F, os, ws, lay.localsEnd, k);
      OpAt(F, os, ws, lay.localsEnd, k);
      OpInRange(os[k], CodeScope(F, lay.localsEnd), |F.consts|, maxRegs);
    }
  }

  // ---- narrow units -----------------------------------------------------

  lemma NarrowReg(o: Op)
    requires o.Reg? && Lowered(o.op) && Padded(o.op, o.x, o.y, o.z)
    requires (forall r :: r in Uses(o) ==> r < 256) && (Writes(o).Some? ==> Writes(o).value < 256)
    ensures OneWord(o)
  {
    hide Uses; hide Writes;
    RegShape(o.op, o.x, o.y, o.z, o.mask);
    var u := Uses(o);
    if o.op == CALL {
      var k := CALL_HEADER_REGS + o.z - 1;
      assert u[k] == o.y + k && u[k] in u;
    } else if u != [] {
      assert u[0] in u && u[|u| - 1] in u;
    }
  }

  // A unit of at most 256 registers that does not multiply has simple code.
  lemma UnitSimple(lay: Layout, body: Stmts)
    requires WfLayout(lay) && WfStmts(lay, body) && !CompUnit(lay, body).failed
             && |CompUnit(lay, body).items| < 0x1_0000
    requires CompUnit(lay, body).high <= 256 && NoProducts(Assemble(CompUnit(lay, body)).instrs)
    ensures Simple(Assemble(CompUnit(lay, body)).instrs)
  {
    hide Coded; hide CompUnit; hide WfStmts; hide Placed; hide OpsOk; hide Frugal; hide Walk;
    var F := CompUnit(lay, body);
    var ws := Assemble(F).instrs;
    var os := ListUnit(lay, body);
    UnitCoded(lay, F, os);
    assert lay.localsEnd < F.top <= F.high;
    forall p: nat | IsHead(ws, true, p) ensures Tame(ws[p]) {
      var k := HeadOf(F, os, ws, lay.localsEnd, p);
      OpAt(F, os, ws, lay.localsEnd, k);
      assert Off(os, k) < |ws| && !(ws[Off(os, k)].op == WIDE && ws[Off(os, k)].c == REG_EXT) by {
        OpAt(F, os, ws, lay.localsEnd, k);
        Wordy(os[k]);
        WordOf(F, os, ws, lay.localsEnd, k, 0);
        if os[k].Reg? || os[k].Jump? { NarrowOp(os[k], CodeScope(F, lay.localsEnd), |F.consts|); }
        Encodable(F, os, ws, lay.localsEnd, k);
        FirstWord(os[k], F.labels);
      }
    }
  }

  // No instruction of the code multiplies.
  ghost predicate NoProducts(ws: Text) { forall p: nat :: IsHead(ws, true, p) ==> ws[p].op != MUL }

  // Operands below 256 need no prefix.
  lemma NarrowOp(o: Op, sc: Scope, pool: nat)
    requires OpOk(o, sc, pool) && (o.Reg? || o.Jump?) && sc.ins == {} && sc.base < sc.hi <= 256
    ensures OneWord(o)
  {
    hide FitsMask; hide Lowered; hide Uses; hide Writes; hide Padded; hide OpOk;
    OpInRange(o, sc, pool, 256);
    if o.Reg? { NarrowReg(o); } else { NarrowJump(o); }
  }

  lemma NarrowJump(o: Op)
    requires o.Jump? && (o.op == JUMP ==> o.reg == 0) && forall r :: r in Uses(o) ==> r < 256
    ensures OneWord(o)
  {
    if o.op != JUMP { assert Uses(o)[0] == o.reg && o.reg in Uses(o); }
  }

  lemma FirstWord(o: Op, labels: seq<Option<nat>>)
    requires !o.Mark? && ((o.Reg? && Lowered(o.op)) || (o.Jump? && IsBranch(o.op)) ==> OneWord(o))
             && (o.Reg? ==> Lowered(o.op)) && (o.Jump? ==> IsBranch(o.op))
    ensures |ItemsOf(o)| >= 1
    ensures var w := Resolve(ItemsOf(o)[0], labels); !(w.op == WIDE && w.c == REG_EXT)
  {
    hide Patch;
    if o.Jump? { PatchOp(o.op, Low8(o.reg), Assembly.Target(labels, o.lab)); }
  }
}
