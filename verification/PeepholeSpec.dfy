/**
 What one round of the peephole pass computes (crates/v12-bccompiler/src/peephole.rs),
 word by word: which literal triples are folded, which words are deleted, where every
 word goes, and how branches are threaded.  `Peephole` holds the source's loops over
 buffers, proved to compute exactly this.
 */
module PeepholeSpec {
  import opened Words
  import opened Machine
  import opened Assembly

  type Text = seq<Instr>

  // ---- layout -----------------------------------------------------------

  // Length of the sequence at pc.  The pass counts a register prefix and the
  // instruction it widens as two sequences; the machine executes them as one
  // (`merged`).
  function Span(ws: Text, pc: nat, merged: bool): (w: nat)
    requires pc < |ws|
    ensures 1 <= w && pc + w <= |ws|
  {
    if merged && Decode(ws, pc).Some? then Decode(ws, pc).value.width else WordWidth(ws, pc)
  }

  // Walking from `from`, sequence by sequence, arrives at pc.
  predicate Walk(ws: Text, merged: bool, from: nat, pc: nat)
    requires from <= |ws|
    decreases |ws| - from
  {
    from == pc || (from < pc && from < |ws| && Walk(ws, merged, from + Span(ws, from, merged), pc))
  }

  // pc starts a sequence.
  predicate IsHead(ws: Text, merged: bool, pc: nat) {
    pc < |ws| && Walk(ws, merged, 0, pc)
  }

  // pc starts an instruction, or is the end of the code.
  predicate Place(ws: Text, pc: nat) {
    pc <= |ws| && Walk(ws, true, 0, pc)
  }

  // ---- constant folding -------------------------------------------------

  predicate LoadIntAt(ws: Text, h: nat) {
    IsHead(ws, false, h) && ws[h].op == LOAD_INT
  }

  // The arithmetic reads the two loads in order, or in reverse where that is the same.
  predicate Direct(ws: Text, h: nat)
    requires h + 2 < |ws|
  {
    ws[h + 2].b == ws[h].a && ws[h + 2].c == ws[h + 1].a
  }

  predicate Swapped(ws: Text, h: nat)
    requires h + 2 < |ws|
  {
    (ws[h + 2].op == ADD || ws[h + 2].op == MUL) && ws[h + 2].b == ws[h + 1].a && ws[h + 2].c == ws[h].a
  }

  // The folded literal.
  function FoldValue(ws: Text, h: nat): int
    requires h + 2 < |ws|
  {
    var (lx, ly) := (Sign8(ws[h].c), Sign8(ws[h + 1].c));
    var (a, b) := if Direct(ws, h) then (lx, ly) else (ly, lx);
    if ws[h + 2].op == ADD then a + b else if ws[h + 2].op == SUB then a - b else Times(a, b)
  }

  // Two literal loads and the arithmetic on them, not at the very end of the code.
  predicate Pattern(ws: Text, h: nat) {
    && h + 3 < |ws|
    && LoadIntAt(ws, h) && LoadIntAt(ws, h + 1) && IsHead(ws, false, h + 2) && IsFoldable(ws[h + 2].op)
    && (Direct(ws, h) || Swapped(ws, h))
    && -128 <= FoldValue(ws, h) <= 127
  }

  // The triples that are folded: leftmost first, without overlap.
  predicate Site(ws: Text, h: nat)
    decreases h
  {
    Pattern(ws, h) && !(h >= 1 && Site(ws, h - 1)) && !(h >= 2 && Site(ws, h - 2))
  }

  function LiteralByte(v: int): Byte { v % 256 }

  function FoldWord(ws: Text, h: nat): Instr
    requires h + 2 < |ws|
  {
    Instr(LOAD_INT, ws[h + 2].a, 0, LiteralByte(FoldValue(ws, h)))
  }

  function Rewritten(ws: Text, k: nat): Instr
    requires k < |ws|
  {
    if Site(ws, k) then FoldWord(ws, k) else ws[k]
  }

  // ---- dead branches ----------------------------------------------------

  // A branch to the instruction right behind it.
  predicate Dead(ws: Text, h: nat) {
    && IsHead(ws, false, h)
    && ((ws[h].op == JUMP && ws[h].Imm24() == h + 1)
        || ((ws[h].op == JUMP_IF_FALSE || ws[h].op == JUMP_IF_TRUE) && ws[h].Imm16() == h + 1))
  }

  predicate Deleted(ws: Text, k: nat) {
    Dead(ws, k) || (k >= 1 && Site(ws, k - 1)) || (k >= 2 && Site(ws, k - 2))
  }

  // ---- compaction -------------------------------------------------------

  // How many of the first k words are kept: the new place of word k.
  function Index(ws: Text, k: nat): (i: nat)
    ensures i <= k
  {
    if k == 0 then 0 else Index(ws, k - 1) + if Deleted(ws, k - 1) then 0 else 1
  }

  function Min(a: nat, b: nat): nat { if a < b then a else b }

  function Remap(ws: Text, w: Instr): Instr {
    if w.op == JUMP then w.SetImm24(Index(ws, Min(w.Imm24(), |ws|)))
    else if IsCondJump(w.op) then w.SetImm16(Index(ws, Min(w.Imm16(), |ws|)))
    else w
  }

  // The kept ones of the first k words, rewritten and with their branches remapped.
  function Compacted(ws: Text, k: nat): (r: Text)
    requires k <= |ws|
    ensures |r| == Index(ws, k)
  {
    if k == 0 then []
    else Compacted(ws, k - 1) + if Deleted(ws, k - 1) then [] else [Remap(ws, Rewritten(ws, k - 1))]
  }

  function MapHandler(ws: Text, h: Handler): Handler {
    Handler(Index(ws, Min(h.start, |ws|)), Index(ws, Min(h.end, |ws|)), Index(ws, Min(h.target, |ws|)), h.depth)
  }

  // Mapped handlers; emptied ranges are dropped.
  function MapHandlers(ws: Text, hs: seq<Handler>): seq<Handler> {
    if hs == [] then []
    else
      var last := MapHandler(ws, hs[|hs| - 1]);
      MapHandlers(ws, hs[..|hs| - 1]) + if last.end > last.start then [last] else []
  }

  predicate AnyDeleted(ws: Text) {
    exists k :: 0 <= k < |ws| && Deleted(ws, k)
  }

  function CompactCode(c: Code): Code {
    if AnyDeleted(c.instrs) then
      Code(Compacted(c.instrs, |c.instrs|), c.consts, MapHandlers(c.instrs, c.handlers))
    else c
  }

  // ---- jump threading ---------------------------------------------------

  const MAX_HOPS: nat := 16

  // Follow unconditional jumps from t; a jump does not look past itself.
  function Chase(ws: Text, self: Option<nat>, t: nat, hops: nat): (nat, nat)
    decreases MAX_HOPS - hops
  {
    if hops >= MAX_HOPS || self == Some(t) || t >= |ws| || ws[t].op != JUMP then (t, hops)
    else Chase(ws, self, ws[t].Imm24(), hops + 1)
  }

  function ThreadWord(ws: Text, i: nat): Instr
    requires i < |ws|
  {
    var w := ws[i];
    if w.op == JUMP then
      var (t, hops) := Chase(ws, Some(i), w.Imm24(), 0);
      if hops > 0 then w.SetImm24(t) else w
    else if IsCondJump(w.op) then
      var (t, hops) := Chase(ws, None, w.Imm16(), 0);
      if hops > 0 then w.SetImm16(t) else w
    else w
  }

  // The words after threading the first k, in place and in order.
  function Threaded(ws: Text, k: nat): (r: Text)
    requires k <= |ws|
    ensures |r| == |ws|
  {
    if k == 0 then ws else
    var r := Threaded(ws, k - 1);
    r[k - 1 := ThreadWord(r, k - 1)]
  }

  function ThreadCode(c: Code): Code {
    c.(instrs := Threaded(c.instrs, |c.instrs|))
  }

  // ---- a round ----------------------------------------------------------

  function RoundOf(c: Code): Code { ThreadCode(CompactCode(c)) }

  // Something was deleted, or some branch looked through a jump.
  predicate Changed(c: Code) {
    AnyDeleted(c.instrs) || Rewired(CompactCode(c).instrs, |CompactCode(c).instrs|)
  }

  predicate Rewired(ws: Text, k: nat)
    requires k <= |ws|
  {
    k > 0 && (Rewired(ws, k - 1) || HopsAt(Threaded(ws, k - 1), k - 1) > 0)
  }

  function HopsAt(ws: Text, i: nat): nat
    requires i < |ws|
  {
    if ws[i].op == JUMP then Chase(ws, Some(i), ws[i].Imm24(), 0).1
    else if IsCondJump(ws[i].op) then Chase(ws, None, ws[i].Imm16(), 0).1
    else 0
  }

  const MAX_ROUNDS: nat := 8

  // Rounds until nothing changes, at most k of them.
  function Optimized(c: Code, k: nat): Code
    decreases k
  {
    if k == 0 then c else if Changed(c) then Optimized(RoundOf(c), k - 1) else RoundOf(c)
  }
}
