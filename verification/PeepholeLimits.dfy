/**
 Where the conditions the peephole pass relies on do not hold: what goes wrong, and
 exactly when.
 */
module PeepholeLimits {
  import opened Words
  import opened Machine
  import opened Assembly
  import opened Simulation
  import opened PeepholeSpec
  import opened PeepholeLayout
  import opened PeepholeSafe
  import opened PeepholeThread
  import opened PeepholeCompact
  import opened PeepholeFold
  import opened PeepholeKeeps
  import opened PeepholeCorrect
  import opened PeepholePrefix
  import opened Source
  import opened Lowering
  import opened Compile
  import opened Validator

  // ---- the sign of a folded zero ----------------------------------------

  // Words without prefixes, payload and branches.
  predicate Straight(ws: Text) {
    |ws| < 0x1_0000 && forall k :: 0 <= k < |ws| ==> ws[k].op != WIDE && !IsBranch(ws[k].op)
  }

  // A round on straight code with one triple, in front.
  lemma FoldsFront(ws: Text)
    requires Straight(ws) && Site(ws, 0) && forall h: nat :: Site(ws, h) ==> h == 0
    ensures RoundOf(Code(ws, [], [])) == Code([FoldWord(ws, 0)] + ws[3..], [], []) && Changed(Code(ws, [], []))
  {
    hide Walk; hide Index; hide Compacted; hide Threaded; hide FoldValue; hide Rewired; hide Remap;
    assert |ws| > 3;
    assert forall k: nat :: Deleted(ws, k) <==> k == 1 || k == 2 by { hide Pattern; }
    hide Site; hide Deleted;
    IndexZero(ws); IndexRun(ws, 0, 1); IndexDeleted(ws, 1); IndexDeleted(ws, 2); IndexRun(ws, 3, |ws|);
    var r := Compacted(ws, |ws|);
    forall k | 3 <= k < |ws| ensures r[k - 2] == ws[k] {
      CompactedAt(ws, |ws|, k);
      IndexRun(ws, 3, k);
      NotRewritten(ws, k);
      RemapShape(ws, ws[k]);
    }
    CompactedAt(ws, |ws|, 0);
    RemapShape(ws, FoldWord(ws, 0));
    assert r == [FoldWord(ws, 0)] + ws[3..];
    NothingToThread(r, |r|);
  }

  lemma CompactedNone(ws: Text)
    ensures Compacted(ws, 0) == []
  {
  }

  lemma CompactedNext(ws: Text, k: nat)
    requires k < |ws|
    ensures Compacted(ws, k + 1) == if Deleted(ws, k) then Compacted(ws, k)
            else Compacted(ws, k) + [Remap(ws, Rewritten(ws, k))]
  {
    hide Deleted; hide Remap; hide Rewritten;
  }

  predicate AnyJump(ws: Text) { exists k :: 0 <= k < |ws| && IsBranch(ws[k].op) }

  // Words that are not wide are all headers.
  lemma {:induction false} AllHeads(ws: Text, k: nat)
    requires k < |ws| && forall i :: 0 <= i < |ws| ==> ws[i].op != WIDE
    ensures forall j :: 0 <= j <= k ==> IsHead(ws, false, j)
    decreases k
  {
    if k > 0 {
      AllHeads(ws, k - 1);
      assert IsHead(ws, false, k - 1);
      WalkNext(ws, false, 0, k - 1);
    }
  }

  lemma {:induction false} NothingToThread(ws: Text, k: nat)
    requires k <= |ws| && !AnyJump(ws)
    ensures Threaded(ws, k) == ws && !Rewired(ws, k)
    decreases k
  {
    if k > 0 { NothingToThread(ws, k - 1); }
  }

  // `return (0 - 1) * 0;` returns the negative zero.  A round folds the difference, the
  // next one the product, to the positive zero.
  const NO_LOCALS: Layout := Layout(map[], 0)
  const ZERO: Expr := Lit(Num(Int(0)))
  const NEGATIVE: Stmts := Cons(Return(Some(Binary(MUL, Binary(SUB, ZERO, Lit(Num(Int(1)))), ZERO))), Nil)
  const SIGN_CODE: Text :=
    [Instr(LOAD_INT, 1, 0, 0), Instr(LOAD_INT, 2, 0, 1), Instr(SUB, 3, 1, 2), Instr(LOAD_INT, 4, 0, 0),
     Instr(MUL, 5, 3, 4), Instr(RETURN, 5, 0, 0)]
  const SIGN_ONCE: Text :=
    [Instr(LOAD_INT, 3, 0, 255), Instr(LOAD_INT, 4, 0, 0), Instr(MUL, 5, 3, 4), Instr(RETURN, 5, 0, 0)]
  const SIGN_LOST: Text := [Instr(LOAD_INT, 5, 0, 0), Instr(RETURN, 5, 0, 0)]

  lemma SignCode()
    ensures var F := CompUnit(NO_LOCALS, NEGATIVE);
            !F.failed && F.items == Raws(SIGN_CODE) && Assemble(F) == Code(SIGN_CODE, [], [])
  {
    hide CompExpr; hide ResolveAll; hide EncodeRegs; hide Raws;
    var b := NewCtx(NO_LOCALS);
    var one := Lit(Num(Int(1)));
    LiteralCode(b, 0);
    LiteralCode(CompExpr(b, NO_LOCALS, ZERO).0, 1);
    BinaryCode(b, SUB, ZERO, one);
    LiteralCode(CompExpr(b, NO_LOCALS, Binary(SUB, ZERO, one)).0, 0);
    BinaryCode(b, MUL, Binary(SUB, ZERO, one), ZERO);
    var b5 := CompExpr(b, NO_LOCALS, NEGATIVE.head.arg.value).0;
    var F := EmitWords(b5, [Instr(RETURN, 5, 0, 0)]);
    assert CompUnit(NO_LOCALS, NEGATIVE) == F by { PlainWord(RETURN, 5, 0, 0, 7); }
    RawWords(F.items, SIGN_CODE);
    ResolvedRaws(SIGN_CODE, F.labels);
  }

  lemma PlainWord(op: Opcode, a: Byte, b: Byte, c: Byte, mask: Byte)
    ensures EncodeRegs(op, a, b, c, mask) == [Instr(op, a, b, c)]
  {
  }

  lemma RawWords(its: seq<Item>, ws: Text)
    requires |its| == |ws| && forall k :: 0 <= k < |ws| ==> its[k] == Raw(ws[k])
    ensures its == Raws(ws)
  {
  }

  lemma LiteralCode(b: Ctx, n: nat)
    requires !b.failed && b.top <= 255 && n <= 127
    ensures var f := b.(items := b.items + [Raw(Instr(LOAD_INT, b.top, 0, n))], top := b.top + 1,
                        high := Max(b.high, b.top + 1));
            CompExpr(b, NO_LOCALS, Lit(Num(Int(n)))) == (f, b.top)
  {
    hide Raws; hide EncodeIntW; hide EncodeRegs; hide AddConst;
    RawWords([Raw(Instr(LOAD_INT, b.top, 0, n))], [Instr(LOAD_INT, b.top, 0, n)]);
  }

  lemma BinaryCode(b: Ctx, op: Opcode, x: Expr, y: Expr)
    requires var (b1, l) := CompExpr(b, NO_LOCALS, x);
             var (b2, r) := CompExpr(b1, NO_LOCALS, y);
             !b2.failed && b2.top <= 255 && l <= 255 && r <= 255
    ensures var (b1, l) := CompExpr(b, NO_LOCALS, x);
            var (b2, r) := CompExpr(b1, NO_LOCALS, y);
            var f := b2.(items := b2.items + [Raw(Instr(op, b2.top, l, r))], top := b2.top + 1,
                         high := Max(b2.high, b2.top + 1));
            CompExpr(b, NO_LOCALS, Binary(op, x, y)) == (f, b2.top)
  {
    hide Raws; hide EncodeRegs; hide LoadValue; hide EmitJump; hide MoveReg;
    var (b1, l) := CompExpr(b, NO_LOCALS, x);
    var (b2, r) := CompExpr(b1, NO_LOCALS, y);
    PlainWord(op, b2.top, l, r, 7);
    RawWords([Raw(Instr(op, b2.top, l, r))], [Instr(op, b2.top, l, r)]);
  }

  lemma ResolvedRaws(ws: Text, labels: seq<Option<nat>>)
    ensures ResolveAll(Raws(ws), labels) == ws
  {
  }

  lemma SignSites(ws: Text)
    requires ws == SIGN_CODE || ws == SIGN_ONCE
    ensures Straight(ws) && Site(ws, 0) && forall h: nat :: Site(ws, h) ==> h == 0
    ensures [FoldWord(ws, 0)] + ws[3..] == if ws == SIGN_CODE then SIGN_ONCE else SIGN_LOST
  {
    hide Walk;
    AllHeads(ws, |ws| - 1);
    assert IsHead(ws, false, 0) && IsHead(ws, false, 1) && IsHead(ws, false, 2);
    assert FoldValue(ws, 0) == if ws == SIGN_CODE then -1 else 0;
    assert Pattern(ws, 0);
  }

  lemma SignRounds()
    ensures Optimized(Code(SIGN_CODE, [], []), MAX_ROUNDS) == Code(SIGN_LOST, [], [])
  {
    hide RoundOf; hide Changed; hide Site; hide FoldWord;
    var (c0, c1, c2) := (Code(SIGN_CODE, [], []), Code(SIGN_ONCE, [], []), Code(SIGN_LOST, [], []));
    SignSites(SIGN_CODE); FoldsFront(SIGN_CODE);
    SignSites(SIGN_ONCE); FoldsFront(SIGN_ONCE);
    SignEnds(c2);
    assert Optimized(c2, 6) == c2;
    assert Optimized(c1, 7) == Optimized(c2, 6);
  }

  lemma SignEnds(c: Code)
    requires c.instrs == SIGN_LOST
    ensures RoundOf(c) == c && !Changed(c)
  {
    hide Walk; hide Threaded; hide Rewired;
    assert forall h: nat :: !Site(c.instrs, h);
    NothingToThread(c.instrs, 2);
  }

  // The evaluator returns the negative zero, the optimized code the positive one.
  lemma SignLostReturns(m: Machine, st: Store, regs: Regs, tr: Trace, fuel: nat)
    requires Compiled(m, NO_LOCALS, NEGATIVE)
    ensures ExecAll(m.host, NEGATIVE, st, tr, fuel) == SRes(Ret(Num(NegZero)), st, tr)
    ensures Converges(m.(code := Optimized(m.code, MAX_ROUNDS)), State(0, regs, tr),
                      Final(Returned(Num(Int(0))), regs[5 := Num(Int(0))], tr))
  {
    hide Compiled; hide Optimized; hide CompUnit;
    SignCode();
    SignRounds();
    assert m.code == Assemble(CompUnit(NO_LOCALS, NEGATIVE)) by { CodeOf(m); }
    var m2 := m.(code := Code(SIGN_LOST, [], []));
    var (s, s1) := (State(0, regs, tr), State(1, regs[5 := Num(Int(0))], tr));
    LoadStep(m2, s);
    OneWord(m2, s1);
    RunsOne(m2, s);
    assert Runs(m2, s1, 0, s1);
    Prepend(m2, s, 1, s1, Step(m2, s1).f);
    SignEvaluated(m.host, st, tr, fuel);
  }

  lemma CodeOf(m: Machine)
    requires Compiled(m, NO_LOCALS, NEGATIVE)
    ensures m.code == Assemble(CompUnit(NO_LOCALS, NEGATIVE))
  {
    hide CompUnit; hide Assemble;
  }

  lemma SignEvaluated(h: Host, st: Store, tr: Trace, fuel: nat)
    ensures ExecAll(h, NEGATIVE, st, tr, fuel) == SRes(Ret(Num(NegZero)), st, tr)
  {
    var one := Lit(Num(Int(1)));
    assert Eval(h, Binary(SUB, ZERO, one), st, tr) == Value(Num(Int(-1)), st, tr);
    assert Eval(h, Binary(MUL, Binary(SUB, ZERO, one), ZERO), st, tr) == Value(Num(NegZero), st, tr);
    assert Execute(h, NEGATIVE.head, st, tr, fuel) == SRes(Ret(Num(NegZero)), st, tr);
  }

  // ---- payload words that read as branches ------------------------------

  // The low bits a branch word keeps of a target.
  function Kept(w: Instr, t: nat): nat {
    if w.op == JUMP then t % 0x100_0000 else t % 0x1_0000
  }

  // Where the branch word k points after compaction, before threading.
  function Moved(ws: Text, k: nat): nat
    requires k < |ws| && IsBranch(ws[k].op)
  {
    var t := BranchTarget(ws[k]);
    if AnyDeleted(ws) then Index(ws, Min(t, |ws|)) else t
  }

  // What threading sees at the new place of word k.
  function Seen(c: Code, k: nat): Text
    requires Index(c.instrs, k) <= |CompactCode(c).instrs|
  {
    Threaded(CompactCode(c).instrs, Index(c.instrs, k))
  }

  // The word is left alone: when threading finds a jump at its supposed target, the
  // chase from there comes back to that target; otherwise nothing is deleted in front
  // of the target, which lies inside the code unless nothing is deleted at all.
  ghost predicate LeftAlone(c: Code, k: nat)
    requires k < |c.instrs| && IsBranch(c.instrs[k].op) && Index(c.instrs, k) < |CompactCode(c).instrs|
  {
    var (w, t, r) := (c.instrs[k], BranchTarget(c.instrs[k]), Seen(c, k));
    var self := if w.op == JUMP then Some(Index(c.instrs, k)) else None;
    var (end, hops) := Chase(r, self, Moved(c.instrs, k), 0);
    if hops > 0 then Kept(w, end) == t
    else AnyDeleted(c.instrs) ==> t <= |c.instrs| && forall i: nat :: i < t ==> !Deleted(c.instrs, i)
  }

  // A kept word, payload or not, is the same word after the round if and only if it
  // does not read as a branch or is left alone.
  lemma PayloadIntact(c: Code, k: nat)
    requires k < |c.instrs| < 0x1_0000 && !Deleted(c.instrs, k) && !Site(c.instrs, k)
    ensures Index(c.instrs, k) < |CompactCode(c).instrs| == |RoundOf(c).instrs|
    ensures RoundOf(c).instrs[Index(c.instrs, k)] == c.instrs[k] <==> !IsBranch(c.instrs[k].op) || LeftAlone(c, k)
  {
    hide Deleted; hide Site; hide Index; hide Compacted; hide Instr.Imm16; hide Instr.Imm24;

    var (ws, w) := (c.instrs, c.instrs[k]);
    assert var (ws, w, ws1, j) := (c.instrs, c.instrs[k], CompactCode(c).instrs, Index(c.instrs, k));
           && j < |ws1| && ws1[j].op == w.op
           && (if IsBranch(w.op) then (w.op != JUMP ==> ws1[j].a == w.a) && BranchTarget(ws1[j]) == Moved(ws, k)
               else ws1[j] == w) by {
      var ws := c.instrs;
      if AnyDeleted(ws) {
        CompactedAt(ws, |ws|, k);
        NotRewritten(ws, k);
        RemapShape(ws, ws[k]);
      } else {
        IndexZero(ws);
        IndexRun(ws, 0, k);
      }
    }
    var ws1 := CompactCode(c).instrs;
    var j := Index(ws, k);
    ThreadedAt(ws1, |ws1|, j);
    ThreadedAt(ws1, j, j);
    if IsBranch(w.op) {
      var r := Seen(c, k);

      SameImm(w, RoundOf(c).instrs[j]);
      if AnyDeleted(ws) { UnmovedIff(ws, BranchTarget(w)); }
    }
  }

  // Threading changes word j only when it comes to it.
  lemma {:induction false} ThreadedAt(ws: Text, n: nat, j: nat)
    requires n <= |ws| && j < |ws|
    ensures Threaded(ws, n)[j] == if j < n then ThreadWord(Threaded(ws, j), j) else ws[j]
    decreases n
  {
    hide ThreadWord;
    if n > 0 { ThreadedAt(ws, n - 1, j); }
  }

  // Compaction leaves a target where it is exactly when nothing in front of it goes.
  lemma UnmovedIff(ws: Text, t: nat)
    ensures Index(ws, Min(t, |ws|)) == t <==> t <= |ws| && forall i: nat :: i < t ==> !Deleted(ws, i)
  {
    hide Deleted; hide Index;
    if t <= |ws| && forall i: nat :: i < t ==> !Deleted(ws, i) {
      IndexZero(ws);
      IndexRun(ws, 0, t);
    } else if t <= |ws| {
      var i: nat :| i < t && Deleted(ws, i);
      IndexZero(ws);
      IndexMono(ws, 0, i);
      IndexDeleted(ws, i);
      IndexMono(ws, i + 1, t);
    }
  }

  // A branch word is determined by its opcode, register and target.
  lemma SameImm(w: Instr, w': Instr)
    requires w'.op == w.op && IsBranch(w.op) && (w.op != JUMP ==> w'.a == w.a)
    ensures w' == w <==> BranchTarget(w') == BranchTarget(w)
  {
    JoinSum(w.b, w.c); JoinSum(w'.b, w'.c);
    JoinSum(w.a, w.b); JoinSum(Join(w.a, w.b), w.c);
    JoinSum(w'.a, w'.b); JoinSum(Join(w'.a, w'.b), w'.c);
  }

  // A literal whose low word reads as a jump: deleting the dead branch in front of
  // it changes the literal.
  const LITERAL_HIT: Text :=
    [Instr(JUMP, 0, 0, 1), Instr(WIDE, 0, 0, LOAD_INT_W), Instr(JUMP, 0, 0, 5), Instr(0, 0, 0, 0), Instr(0, 0, 0, 1),
     Instr(RETURN, 1, 0, 0)]

  lemma LiteralChanged(ws: Text)
    requires ws == LITERAL_HIT
    ensures !PayloadOk(ws) && Dead(ws, 0)
    ensures Decode(ws, 1).Some? && Decode(ws, 1).value.payload[0] == ws[2]
    ensures |Compacted(ws, 3)| == 2 && Compacted(ws, 3)[1] == Instr(JUMP, 0, 0, 4) != ws[2]
  {
    hide Walk;
    assert IsHead(ws, true, 1) && Dead(ws, 0) && Deleted(ws, 0) && forall k :: 1 <= k < 5 ==> !Deleted(ws, k) by {
      StartsAt(ws, false); StartsAt(ws, true);
      assert Span(ws, 0, true) == 1 && Span(ws, 0, false) == 1 && Span(ws, 1, false) == 4;
      WalkNext(ws, true, 0, 0);
      WalkNext(ws, false, 0, 0);
      forall k | 1 < k < 5 ensures !IsHead(ws, false, k) {
        if Walk(ws, false, 0, k) { WalkApart(ws, false, 0, 1, k); }
      }
      forall h: nat ensures !Site(ws, h) { }
    }
    assert !PayloadOk(ws) by { assert IsHead(ws, true, 1) && 1 < 2 < 1 + WordWidth(ws, 1) && IsBranch(ws[2].op); }
    IndexZero(ws); IndexDeleted(ws, 0); IndexRun(ws, 1, 5);
    CompactedNone(ws); CompactedNext(ws, 0); CompactedNext(ws, 1); CompactedNext(ws, 2);
    NotSiteOp(ws, 1); NotSiteOp(ws, 2);
    RemapShape(ws, ws[1]); RemapShape(ws, ws[2]);
    SameImm(Remap(ws, ws[2]), Instr(JUMP, 0, 0, 4));
  }

  // A literal whose low word reads as a jump to a jump: nothing is deleted, yet
  // threading changes the literal.
  const LITERAL_THREADED: Text :=
    [Instr(WIDE, 0, 0, LOAD_INT_W), Instr(JUMP, 0, 0, 4), Instr(0, 0, 0, 0), Instr(0, 0, 0, 1), Instr(JUMP, 0, 0, 6),
     Instr(LOOP_HEADER, 0, 0, 0),
     Instr(RETURN, 1, 0, 0)]

  lemma LiteralThreaded(c: Code, ws: Text)
    requires c.instrs == ws == LITERAL_THREADED
    ensures !AnyDeleted(ws) && Decode(ws, 0).Some? && Decode(ws, 0).value.payload[0] == ws[1]
    ensures |RoundOf(c).instrs| == 7 && RoundOf(c).instrs[1] == Instr(JUMP, 0, 0, 6) != ws[1]
  {
    hide Walk; hide Threaded; hide Deleted; hide Site; hide Chase; hide AnyDeleted;
    ThreadedLiteralKept(ws);
    ThreadedAt(ws, 7, 1);
    ThreadedAt(ws, 1, 1);
    ThreadedAt(ws, 1, 4);
    ThreadedAt(ws, 1, 6);
    LooksThrough(Threaded(ws, 1));
  }

  lemma LooksThrough(r: Text)
    requires |r| == 7 && r[1] == Instr(JUMP, 0, 0, 4) && r[4] == Instr(JUMP, 0, 0, 6) && r[6].op != JUMP
    ensures ThreadWord(r, 1) == Instr(JUMP, 0, 0, 6)
  {
    hide Instr.SetImm24;
    assert Chase(r, Some(1), 6, 1) == (6, 1);
    assert Chase(r, Some(1), 4, 0) == (6, 1);
    SameImm(r[1].SetImm24(6), Instr(JUMP, 0, 0, 6));
  }

  lemma ThreadedLiteralKept(ws: Text)
    requires ws == LITERAL_THREADED
    ensures !AnyDeleted(ws)
  {
    hide Walk;
    StartsAt(ws, false);
    assert Span(ws, 0, false) == 4;
    forall k: nat ensures !Deleted(ws, k) {
      assert !Site(ws, k) && (k >= 1 ==> !Site(ws, k - 1)) && (k >= 2 ==> !Site(ws, k - 2));
      if Dead(ws, k) { WalkApart(ws, false, 0, 0, k); }
    }
  }

  // ---- prefixes that outlive their branch -------------------------------

  // Deleting the branch leaves its prefix to the next instruction, which then reads
  // another register; `PeepholePrefix.CompactionExact` says when this does not happen.
  const PREFIX_LEFT: Text :=
    [Instr(WIDE, 1, 0, REG_EXT), Instr(0, 1, 0, 0), Instr(JUMP_IF_FALSE, 0, 0, 3), Instr(RETURN, 0, 0, 0)]

  lemma PrefixDangles(ws: Text)
    requires ws == PREFIX_LEFT
    ensures PayloadOk(ws) && SitesOk(ws) && Dead(ws, 2) && !DeadOk(ws)
    ensures Decode(ws, 3).Some? && Decode(ws, 3).value.op == RETURN && Decode(ws, 3).value.a == 0
    ensures var d := Decode(Compacted(ws, 4), 0);
            d.Some? && d.value.op == RETURN && d.value.a == 256
  {
    hide Walk;

    assert SitesOk(ws) && Dead(ws, 2) && !IsHead(ws, true, 2) && !Deleted(ws, 0) && !Deleted(ws, 1) && Deleted(ws, 2)
      && !Deleted(ws, 3) by {
      StartsAt(ws, false); StartsAt(ws, true);
      assert Span(ws, 0, true) == 3 && Span(ws, 0, false) == 2;
      WalkNext(ws, false, 0, 0);
      if Walk(ws, true, 0, 2) { WalkApart(ws, true, 0, 0, 2); }
      forall h: nat ensures !Site(ws, h) { }
    }
    CompactedNone(ws); CompactedNext(ws, 0); CompactedNext(ws, 1); CompactedNext(ws, 2); CompactedNext(ws, 3);
    NotSiteOp(ws, 0); NotSiteOp(ws, 1); NotSiteOp(ws, 3);
    RemapShape(ws, ws[0]); RemapShape(ws, ws[1]); RemapShape(ws, ws[3]);
    var r := Compacted(ws, 4);
    assert r == [ws[0], ws[1], ws[3]];
  }

  // ---- the same from source ---------------------------------------------

  // `if (x) {}` in a unit with 300 registers of locals: the test is in register 301.
  const WIDE_LAYOUT: Layout := Layout(map[0 := 1], 300)
  const EMPTY_IF: Stmts := Cons(If(Local(0), Empty, Empty), Nil)

  // Its code; after a round the jump over the empty branch is gone, after two the
  // conditional jump, but not its prefix.
  const IF_CODE: Text :=
    [Instr(WIDE, 3, 0, REG_EXT), Instr(0, 1, 0, 0), Instr(MOVE, 45, 1, 0), Instr(WIDE, 1, 0, REG_EXT),
     Instr(0, 1, 0, 0),
     Instr(JUMP_IF_FALSE, 45, 0, 7), Instr(JUMP, 0, 0, 7)]
  const IF_ONCE: Text := IF_CODE[..5] + [Instr(JUMP_IF_FALSE, 45, 0, 6)]
  const IF_TWICE: Text := IF_CODE[..5]

  lemma EmptyIfCode()
    ensures var F := CompUnit(WIDE_LAYOUT, EMPTY_IF);
            !F.failed && F.handlers == [] && F.labels == [Some(7), Some(7)]
            && F.items == Raws(IF_CODE[..5]) + [Branch(JUMP_IF_FALSE, 45, 0), Branch(JUMP, 0, 1)]
  {
    hide Raws;
    var b1 := CompExpr(NewCtx(WIDE_LAYOUT), WIDE_LAYOUT, Local(0)).0;
    assert |b1.items| == 3;
  }

  lemma IfWords(F: Ctx, ws: Text, code: Text)
    requires F.labels == [Some(7), Some(7)] && |code| == 7 && code[5] == Instr(JUMP_IF_FALSE, 45, 0, 7)
             && code[6] == Instr(JUMP, 0, 0, 7)
    requires F.items == Raws(code[..5]) + [Branch(JUMP_IF_FALSE, 45, 0), Branch(JUMP, 0, 1)]
             && ws == ResolveAll(F.items, F.labels)
    ensures ws == code
  {
    ResolvedTo(JUMP_IF_FALSE, 45, 0, F.labels, code[5]);
    ResolvedTo(JUMP, 0, 1, F.labels, code[6]);
    forall k | 0 <= k < 5 ensures ws[k] == code[k] {
      assert F.items[k] == Raw(code[k]);
    }
    assert F.items[5] == Branch(JUMP_IF_FALSE, 45, 0) && F.items[6] == Branch(JUMP, 0, 1);
  }

  lemma ResolvedTo(op: Opcode, reg: Byte, l: nat, labels: seq<Option<nat>>, w: Instr)
    requires l < |labels| && labels[l] == Some(7) && w == Instr(op, reg, 0, 7) && IsBranch(op)
             && (op == JUMP ==> reg == 0)
    ensures Resolve(Branch(op, reg, l), labels) == w
  {
    hide Patch;
    PatchedBranch(op, reg, 7);
    SameImm(w, Resolve(Branch(op, reg, l), labels));
  }

  // Where the sequences of these texts start.
  lemma IfHeads(ws: Text)
    requires |ws| >= 5 && ws[..5] == IF_CODE[..5] && |ws| <= 7 && (|ws| > 5 ==> ws[5].op == JUMP_IF_FALSE)
             && (|ws| > 6 ==> ws[6].op == JUMP)
    ensures forall p: nat :: p < |ws| ==> (IsHead(ws, false, p) <==> p == 0 || p == 2 || p == 3 || p >= 5)
    ensures IsHead(ws, true, 3)
  {
    hide Walk;
    assert ws[0] == IF_CODE[0] && ws[1] == IF_CODE[1] && ws[2] == IF_CODE[2] && ws[3] == IF_CODE[3]
      && ws[4] == IF_CODE[4];
    StartsAt(ws, false); StartsAt(ws, true);
    assert Span(ws, 0, false) == 2 && Span(ws, 2, false) == 1 && Span(ws, 3, false) == 2 && Span(ws, 0, true) == 3;
    WalkNext(ws, false, 0, 0); WalkNext(ws, false, 0, 2); WalkNext(ws, false, 0, 3);
    if |ws| > 6 { WalkNext(ws, false, 0, 5); }
    WalkNext(ws, true, 0, 0);
    forall p: nat | p < |ws| && (p == 1 || p == 4) ensures !IsHead(ws, false, p) {
      if Walk(ws, false, 0, p) { WalkApart(ws, false, 0, p - 1, p); }
    }
  }

  // One round on a text of this shape whose last word alone is deleted.
  lemma LastGoes(ws: Text, n: nat)
    requires n + 1 == |ws| < 0x1_0000 && (forall h: nat :: !Site(ws, h)) && (forall h: nat :: Dead(ws, h) <==> h == n)
    ensures AnyDeleted(ws) && |Compacted(ws, |ws|)| == n
    ensures forall k :: 0 <= k < n ==> Compacted(ws, |ws|)[k] == Remap(ws, ws[k])
    ensures Index(ws, n) == n && Index(ws, n + 1) == n
  {
    hide Dead; hide Site; hide Compacted; hide Remap; hide Index;
    assert forall k: nat :: Deleted(ws, k) <==> k == n;
    IndexZero(ws);
    IndexRun(ws, 0, n);
    IndexDeleted(ws, n);
    forall k | 0 <= k < n ensures |Compacted(ws, |ws|)| == n && Compacted(ws, |ws|)[k] == Remap(ws, ws[k]) {
      CompactedAt(ws, |ws|, k);
      IndexRun(ws, 0, k);
      NotRewritten(ws, k);
    }
  }

  lemma NoSites(ws: Text)
    requires forall k :: 0 <= k < |ws| ==> ws[k].op != LOAD_INT
    ensures forall h: nat :: !Site(ws, h)
  {
    forall h: nat ensures !Site(ws, h) { if h < |ws| { NotSiteOp(ws, h); } }
  }

  lemma FirstRound(ws: Text)
    requires ws == IF_CODE
    ensures RoundOf(Code(ws, [], [])) == Code(IF_ONCE, [], []) && Changed(Code(ws, [], []))
  {
    hide Walk; hide Compacted; hide Threaded; hide Index; hide Remap; hide Site; hide Dead; hide Rewired;
    hide AnyDeleted; hide Instr.Imm16;
    IfHeads(ws);
    NoSites(ws);
    DeadIn(ws, 6);
    LastGoes(ws, 6);
    var r := Compacted(ws, |ws|);
    IfKept(ws, r, 6);
    StillThreads(r) by { IfEnds(r); }
    assert CompactCode(Code(ws, [], [])) == Code(r, [], []);
  }

  // What is left when the last word goes.
  lemma IfKept(ws: Text, r: Text, n: nat)
    requires (ws == IF_CODE && n == 6) || (ws == IF_ONCE && n == 5)
    requires |r| == n && Index(ws, n + 1) == n && forall k :: 0 <= k < n ==> r[k] == Remap(ws, ws[k])
    ensures r == if n == 6 then IF_ONCE else IF_TWICE
  {
    hide Index; hide Remap; hide Instr.Imm16; hide Instr.Imm24;
    forall k | 0 <= k < 5 ensures r[k] == IF_CODE[k] {
      assert ws[k] == IF_CODE[k] && !IsBranch(IF_CODE[k].op);
      RemapShape(ws, ws[k]);
    }
    if n == 6 {
      RemapShape(ws, ws[5]);
      IfTarget(ws[5], IF_ONCE[5]);
      SameImm(r[5], IF_ONCE[5]);
    }
  }

  lemma IfTarget(w: Instr, w': Instr)
    requires w == Instr(JUMP_IF_FALSE, 45, 0, 7) && w' == Instr(JUMP_IF_FALSE, 45, 0, 6)
    ensures BranchTarget(w) == 7 && BranchTarget(w') == 6
  {
  }

  lemma IfEnds(r: Text)
    requires r == IF_ONCE || r == IF_TWICE
    ensures |r| <= 6 && forall k :: 0 <= k < |r| ==> r[k].op != JUMP && (IsBranch(r[k].op) ==> r[k].Imm16() == |r|)
  {
  }

  lemma DeadIn(ws: Text, n: nat)
    requires (ws == IF_CODE && n == 6) || (ws == IF_ONCE && n == 5)
    requires forall p: nat :: p < |ws| ==> (IsHead(ws, false, p) <==> p == 0 || p == 2 || p == 3 || p >= 5)
    ensures forall h: nat :: Dead(ws, h) <==> h == n
  {
    hide Walk;
  }

  // Branches to the end are left as they are.
  lemma StillThreads(r: Text)
    requires |r| <= 6 && forall k :: 0 <= k < |r| ==> r[k].op != JUMP && (IsBranch(r[k].op) ==> r[k].Imm16() == |r|)
    ensures Threaded(r, |r|) == r && !Rewired(r, |r|)
  {
    StillTo(r, |r|);
  }

  lemma {:induction false} StillTo(r: Text, n: nat)
    requires n <= |r| && forall k :: 0 <= k < |r| ==> r[k].op != JUMP && (IsBranch(r[k].op) ==> r[k].Imm16() == |r|)
    ensures Threaded(r, n) == r && !Rewired(r, n)
    decreases n
  {
    hide Instr.Imm16;
    if n > 0 {
      StillTo(r, n - 1);
      assert ThreadWord(r, n - 1) == r[n - 1] && HopsAt(r, n - 1) == 0;
    }
  }

  lemma SecondRound(ws: Text)
    requires ws == IF_ONCE
    ensures RoundOf(Code(ws, [], [])) == Code(IF_TWICE, [], []) && Changed(Code(ws, [], [])) && !DeadOk(ws)
  {
    hide Walk; hide Compacted; hide Threaded; hide Index; hide Remap; hide Site; hide Dead; hide Rewired;
    hide AnyDeleted; hide Instr.Imm16;
    assert ws[..5] == IF_CODE[..5];
    IfHeads(ws);
    NoSites(ws);
    DeadIn(ws, 5);
    LastGoes(ws, 5);
    var r := Compacted(ws, |ws|);
    IfKept(ws, r, 5);
    StillThreads(r) by { IfEnds(r); }
    assert CompactCode(Code(ws, [], [])) == Code(r, [], []);

    Inside(ws, 3, 5);
  }

  lemma ThirdRound(ws: Text)
    requires ws == IF_TWICE
    ensures RoundOf(Code(ws, [], [])) == Code(ws, [], []) && !Changed(Code(ws, [], []))
  {
    hide Walk; hide Threaded; hide Site; hide Rewired;
    IfHeads(ws);
    NoSites(ws);
    assert forall k :: 0 <= k < |ws| ==> ws[k] == IF_CODE[k];
    forall k: nat ensures !Deleted(ws, k) {
      assert !Site(ws, k) && (k >= 1 ==> !Site(ws, k - 1)) && (k >= 2 ==> !Site(ws, k - 2));
    }
    StillThreads(ws);
  }

  lemma OptimizedIf()
    ensures Optimized(Code(IF_CODE, [], []), MAX_ROUNDS) == Code(IF_TWICE, [], [])
  {
    hide RoundOf; hide Changed;
    var (c0, c1, c2) := (Code(IF_CODE, [], []), Code(IF_ONCE, [], []), Code(IF_TWICE, [], []));
    FirstRound(IF_CODE);
    SecondRound(IF_ONCE);
    ThirdRound(IF_TWICE);
    assert Optimized(c2, 6) == c2;
    assert Optimized(c1, 7) == Optimized(c2, 6);
  }

  lemma EmptyIfPayload(ws: Text)
    requires ws == IF_CODE
    ensures PayloadOk(ws)
  {
    hide Walk;
    IfHeads(ws);
    forall p: nat, k: nat | IsHead(ws, true, p) && p < k < p + WordWidth(ws, p) ensures !IsBranch(ws[k].op) {
      MergedIsPlain(ws, 0, p);
    }
  }

  lemma LoneIf(ws: Text, maxRegs: nat)
    requires ws == IF_TWICE
    ensures !Accepts(ws, 0, maxRegs)
  {
    hide Walk; hide Accepts;
    IfHeads(ws);
    assert ws[3] == IF_CODE[3];
    assert Decode(ws, 3).None?;
    Refused(ws, 3, 0, maxRegs);
  }

  // A valid program without a finished form: the pass leaves a prefix with nothing
  // behind it, which no budget makes acceptable.
  lemma EmptyIfLost(maxRegs: nat)
    ensures var c := Assemble(CompUnit(WIDE_LAYOUT, EMPTY_IF));
            && PayloadOk(c.instrs) && !CleanRounds(c, MAX_ROUNDS)
            && !Accepts(Optimized(c, MAX_ROUNDS).instrs, 0, maxRegs)
  {
    assert Assemble(CompUnit(WIDE_LAYOUT, EMPTY_IF)) == Code(IF_CODE, [], []) by {
      EmptyIfCode();
      var F := CompUnit(WIDE_LAYOUT, EMPTY_IF);
      var ws := Assemble(F).instrs;
      IfWords(F, ws, IF_CODE);
    }
    OptimizedIf();
    EmptyIfPayload(IF_CODE);
    assert !CleanRounds(Code(IF_CODE, [], []), MAX_ROUNDS) by {
      var (c0, c1) := (Code(IF_CODE, [], []), Code(IF_ONCE, [], []));
      FirstRound(IF_CODE);
      SecondRound(IF_ONCE);
      assert !CleanRounds(c1, 7);
    }
    LoneIf(IF_TWICE, maxRegs);
  }
}
