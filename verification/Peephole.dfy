/**
 The peephole pass as the source has it: loops over buffers that mark, compact, remap
 and thread in place.  Each method computes the corresponding function of
 `PeepholeSpec`; `PeepholeCorrect` says what those functions preserve.
 */
module Peephole {
  import opened Words
  import opened Machine
  import opened Assembly
  import opened PeepholeSpec
  import opened PeepholeLayout

  type SpanPair = (nat, nat)

  // What the layout walk finds at word k.
  function WidthHere(ws: Text, k: nat): nat {
    if IsHead(ws, false, k) then WordWidth(ws, k) else 0
  }

  // Header words get their total width, payload words zero.
  method Layout(ws: Text) returns (width: array<nat>)
    ensures fresh(width) && width.Length == |ws|
    ensures forall k :: 0 <= k < |ws| ==> width[k] == WidthHere(ws, k)
  {
    hide Walk; hide WordWidth; hide Span;
    width := new nat[|ws|](_ => 0);
    var pc := 0;
    StartsAt(ws, false);
    while pc < |ws|
      invariant pc <= |ws| && Walk(ws, false, 0, pc)
      invariant forall k :: 0 <= k < pc ==> width[k] == WidthHere(ws, k)
      invariant forall k :: pc <= k < |ws| ==> width[k] == 0
    {
      var w := WordWidth(ws, pc);
      width[pc] := w;
      PlainSpan(ws, pc);
      WalkNext(ws, false, 0, pc);
      forall k: nat | pc < k < pc + w ensures !IsHead(ws, false, k) {
        if Walk(ws, false, 0, k) { WalkApart(ws, false, 0, pc, k); }
      }
      pc := pc + w;
    }
  }

  lemma PlainSpan(ws: Text, pc: nat)
    requires pc < |ws|
    ensures Span(ws, pc, false) == WordWidth(ws, pc)
  {
  }

  // Deleted by folding.
  predicate FoldedAway(ws: Text, k: nat) {
    (k >= 1 && Site(ws, k - 1)) || (k >= 2 && Site(ws, k - 2))
  }

  // Deleted by a fold that starts before h.
  predicate FoldedBefore(ws: Text, k: nat, h: nat) {
    (k >= 1 && k - 1 < h && Site(ws, k - 1)) || (k >= 2 && k - 2 < h && Site(ws, k - 2))
  }

  // One pass over the words: fold, rewrite in place, mark the rest of the triple.
  method FoldPass(ws: Text, width: array<nat>, keep: array<bool>) returns (out: Text, changed: bool)
    requires width.Length == keep.Length == |ws| && keep != width as object
    requires forall k :: 0 <= k < |ws| ==> width[k] == WidthHere(ws, k) && keep[k]
    modifies keep
    ensures |out| == |ws| && forall k :: 0 <= k < |ws| ==> out[k] == Rewritten(ws, k) && keep[k] == !FoldedAway(ws, k)
    ensures changed <==> exists h: nat :: Site(ws, h)
  {
    hide Walk; hide Site; hide FoldWord; hide FoldOf;
    out := ws;
    changed := false;
    var n := |ws|;
    if n < 3 {
      Short(ws);
      return;
    }
    for i := 1 to n - 2
      invariant |out| == n
      invariant forall k :: 0 <= k < n ==> out[k] == if k < i - 1 then Rewritten(ws, k) else ws[k]
      invariant forall k :: 0 <= k < n ==> keep[k] == !FoldedBefore(ws, k, i - 1)
      invariant changed <==> exists h: nat :: h < i - 1 && Site(ws, h)
    {
      var h := i - 1;
      SiteHere(ws, h);
      if keep[i] && keep[h] && width[i] == 1 && out[i].op == LOAD_INT && width[h] == 1 && out[h].op == LOAD_INT
        && width[h + 2] >= 1 {
        var w := FoldOf(out[h], out[i], out[h + 2]);
        if w.Some? {
          out := out[h := w.value];
          keep[i], keep[h + 2] := false, false;
          changed := true;
        }
      }
    }
    LastSites(ws);
  }

  // The folded load for two literal loads and the instruction after them, if they fold.
  function FoldOf(x: Instr, y: Instr, z: Instr): Option<Instr> {
    if !IsFoldable(z.op) then None else
    var direct := z.b == x.a && z.c == y.a;
    var swapped := (z.op == ADD || z.op == MUL) && z.b == y.a && z.c == x.a;
    if !direct && !swapped then None else
    var (a, b) := if direct then (Sign8(x.c), Sign8(y.c)) else (Sign8(y.c), Sign8(x.c));
    var v := if z.op == ADD then a + b else if z.op == SUB then a - b else Times(a, b);
    if -128 <= v <= 127 then Some(Instr(LOAD_INT, z.a, 0, v % 256)) else None
  }

  lemma Short(ws: Text)
    requires |ws| < 3
    ensures forall h: nat :: !Site(ws, h)
  {
    hide Walk;
  }

  // No triple starts in the last three words.
  lemma LastSites(ws: Text)
    ensures forall h: nat :: h + 3 >= |ws| ==> !Site(ws, h)
  {
    hide Walk;
  }

  // When a triple is folded, in terms of what the loop looks at.
  lemma SiteHere(ws: Text, h: nat)
    requires h + 3 < |ws|
    ensures Site(ws, h) <==>
            && !FoldedBefore(ws, h + 1, h) && !FoldedBefore(ws, h, h)
            && WidthHere(ws, h) == 1 && ws[h].op == LOAD_INT && WidthHere(ws, h + 1) == 1 && ws[h + 1].op == LOAD_INT
            && WidthHere(ws, h + 2) >= 1 && FoldOf(ws[h], ws[h + 1], ws[h + 2]).Some?
    ensures Site(ws, h) ==> FoldOf(ws[h], ws[h + 1], ws[h + 2]) == Some(FoldWord(ws, h))
  {
    hide Walk;
  }

  // The header words in order.
  method Headers(ws: Text, width: array<nat>) returns (hs: seq<nat>)
    requires width.Length == |ws| && forall k :: 0 <= k < |ws| ==> width[k] == WidthHere(ws, k)
    ensures forall p :: 0 <= p < |hs| ==> IsHead(ws, false, hs[p])
    ensures forall p, q :: 0 <= p < q < |hs| ==> hs[p] < hs[q]
    ensures forall k: nat :: IsHead(ws, false, k) ==> k in hs
  {
    hide Walk; hide WordWidth;
    hs := [];
    for i := 0 to |ws|
      invariant forall p :: 0 <= p < |hs| ==> hs[p] < i && IsHead(ws, false, hs[p])
      invariant forall p, q :: 0 <= p < q < |hs| ==> hs[p] < hs[q]
      invariant forall k: nat :: k < i && IsHead(ws, false, k) ==> k in hs
    {
      if width[i] > 0 { hs := hs + [i]; }
    }
  }

  // Marks branches to the next header.  The words are the folded ones; folding
  // touches no branch.
  method DeadPass(ws: Text, out: Text, width: array<nat>, keep: array<bool>) returns (changed: bool)
    requires width.Length == keep.Length == |ws| == |out| && keep != width as object
    requires forall k :: 0 <= k < |ws| ==> width[k] == WidthHere(ws, k)
    requires forall k :: 0 <= k < |ws| ==> out[k] == Rewritten(ws, k) && keep[k] == !FoldedAway(ws, k)
    modifies keep
    ensures forall k :: 0 <= k < |ws| ==> keep[k] == !Deleted(ws, k)
    ensures changed <==> exists h: nat :: Dead(ws, h)
  {
    hide Walk; hide Site; hide FoldWord; hide WordWidth; hide Instr.Imm24; hide Instr.Imm16;
    var n := |ws|;
    var hs := Headers(ws, width);
    changed := false;
    for pos := 0 to |hs|
      invariant forall k :: 0 <= k < n ==> keep[k] == !(FoldedAway(ws, k) || (Dead(ws, k) && k in hs[..pos]))
      invariant changed <==> exists h: nat :: h in hs[..pos] && Dead(ws, h)
    {
      var h := hs[pos];
      var next := if pos + 1 < |hs| then hs[pos + 1] else n;
      NextHeader(ws, hs, pos);
      DeadHere(ws, h);
      var w := out[h];
      if (w.op == JUMP && w.Imm24() == next) || ((w.op == JUMP_IF_FALSE || w.op == JUMP_IF_TRUE) && w.Imm16() == next) {
        keep[h] := false;
        changed := true;
      }
      assert hs[..pos + 1] == hs[..pos] + [h];
    }
    assert hs[..|hs|] == hs;
    forall k: nat | Dead(ws, k) ensures k in hs { }
  }

  lemma NextHeader(ws: Text, hs: seq<nat>, pos: nat)
    requires pos < |hs| && (forall p :: 0 <= p < |hs| ==> IsHead(ws, false, hs[p]))
    requires forall p, q :: 0 <= p < q < |hs| ==> hs[p] < hs[q]
    requires forall k: nat :: IsHead(ws, false, k) ==> k in hs
    ensures hs[pos] < |ws| && (if pos + 1 < |hs| then hs[pos + 1] else |ws|) == hs[pos] + WordWidth(ws, hs[pos])
  {
    hide Walk; hide WordWidth; hide Span;
    var h := hs[pos];
    var next := h + Span(ws, h, false);
    PlainSpan(ws, h);
    WalkNext(ws, false, 0, h);
    if next < |ws| {
      assert IsHead(ws, false, next);
      var q :| 0 <= q < |hs| && hs[q] == next;
    }
    if pos + 1 < |hs| {
      WalkApart(ws, false, 0, h, hs[pos + 1]);
    }
  }

  // Dead, as the loop tests it.
  lemma DeadHere(ws: Text, h: nat)
    requires IsHead(ws, false, h)
    ensures var (w, next) := (Rewritten(ws, h), h + WordWidth(ws, h));
            Dead(ws, h) <==>
              (w.op == JUMP && w.Imm24() == next)
              || ((w.op == JUMP_IF_FALSE || w.op == JUMP_IF_TRUE) && w.Imm16() == next)
  {
    hide Walk; hide Instr.Imm24; hide Instr.Imm16;
  }

  // Payload words live or die with their header; nothing the marking did disagrees.
  method PayloadPass(ws: Text, width: array<nat>, keep: array<bool>)
    requires width.Length == keep.Length == |ws| && keep != width as object
    requires forall k :: 0 <= k < |ws| ==> width[k] == WidthHere(ws, k) && keep[k] == !Deleted(ws, k)
    modifies keep
    ensures forall k :: 0 <= k < |ws| ==> keep[k] == !Deleted(ws, k)
  {
    hide Walk; hide Deleted; hide WordWidth; hide Span;
    var pc := 0;
    StartsAt(ws, false);
    while pc < |ws|
      invariant pc <= |ws| && Walk(ws, false, 0, pc)
      invariant forall k :: 0 <= k < |ws| ==> keep[k] == !Deleted(ws, k)
    {
      var w := width[pc];
      PlainSpan(ws, pc);
      WalkNext(ws, false, 0, pc);
      for k := 1 to w
        invariant forall j :: 0 <= j < |ws| ==> keep[j] == !Deleted(ws, j)
      {
        PayloadKept(ws, pc, k);
        keep[pc + k] := keep[pc];
      }
      pc := pc + w;
    }
  }

  lemma PayloadKept(ws: Text, pc: nat, k: nat)
    requires IsHead(ws, false, pc) && 1 <= k < WordWidth(ws, pc)
    ensures !Deleted(ws, pc) && !Deleted(ws, pc + k)
  {
    hide Walk;
    if Walk(ws, false, 0, pc + k) { WalkApart(ws, false, 0, pc, pc + k); }
  }

  // ---- compaction -------------------------------------------------------

  // The kept ones of the first k words, before their branches are remapped.
  function Collected(ws: Text, k: nat): (r: Text)
    requires k <= |ws|
    ensures |r| == Index(ws, k)
  {
    if k == 0 then [] else Collected(ws, k - 1) + if Deleted(ws, k - 1) then [] else [Rewritten(ws, k - 1)]
  }

  function KeptSpans(ws: Text, spans: seq<SpanPair>, k: nat): (r: seq<SpanPair>)
    requires k <= |ws| == |spans|
    ensures |r| == Index(ws, k)
  {
    if k == 0 then [] else KeptSpans(ws, spans, k - 1) + if Deleted(ws, k - 1) then [] else [spans[k - 1]]
  }

  lemma {:induction false} CollectedRemapped(ws: Text, k: nat, i: nat)
    requires k <= |ws| && i < Index(ws, k)
    ensures Compacted(ws, k)[i] == Remap(ws, Collected(ws, k)[i])
    decreases k
  {
    hide Deleted; hide Remap; hide Rewritten;
    if i < Index(ws, k - 1) { CollectedRemapped(ws, k - 1, i); }
  }

  lemma CollectNone(ws: Text, spans: seq<SpanPair>)
    requires |ws| == |spans|
    ensures Index(ws, 0) == 0 && Collected(ws, 0) == [] && KeptSpans(ws, spans, 0) == []
  {
  }

  lemma CollectOne(ws: Text, spans: seq<SpanPair>, k: nat)
    requires k < |ws| == |spans|
    ensures Index(ws, k + 1) == Index(ws, k) + if Deleted(ws, k) then 0 else 1
    ensures Collected(ws, k + 1) == if Deleted(ws, k) then Collected(ws, k) else Collected(ws, k) + [Rewritten(ws, k)]
    ensures KeptSpans(ws, spans, k + 1) == if Deleted(ws, k) then KeptSpans(ws, spans, k)
            else KeptSpans(ws, spans, k) + [spans[k]]
  {
    hide Deleted; hide Rewritten;
  }

  method Collect(ws: Text, out: Text, spans: seq<SpanPair>, keep: array<bool>)
    returns (words: Text, newSpans: seq<SpanPair>, index: array<nat>)
    requires keep.Length == |ws| == |out| == |spans|
    requires forall k :: 0 <= k < |ws| ==> out[k] == Rewritten(ws, k) && keep[k] == !Deleted(ws, k)
    ensures words == Collected(ws, |ws|) && newSpans == KeptSpans(ws, spans, |ws|)
    ensures fresh(index) && index.Length == |ws| + 1 && forall k :: 0 <= k <= |ws| ==> index[k] == Index(ws, k)
  {
    hide Deleted; hide Rewritten; hide Index; hide Collected; hide KeptSpans;
    CollectNone(ws, spans);
    var n := |ws|;
    index := new nat[n + 1](_ => 0);
    var running := 0;
    words, newSpans := [], [];
    for idx := 0 to n
      invariant running == Index(ws, idx) && words == Collected(ws, idx) && newSpans == KeptSpans(ws, spans, idx)
      invariant forall k :: 0 <= k < idx ==> index[k] == Index(ws, k)
    {
      index[idx] := running;
      CollectOne(ws, spans, idx);
      if keep[idx] {
        words := words + [out[idx]];
        newSpans := newSpans + [spans[idx]];
        running := running + 1;
      }
    }
    index[n] := running;
  }

  method RemapWords(ws: Text, words: Text, index: array<nat>) returns (r: Text)
    requires words == Collected(ws, |ws|)
    requires index.Length == |ws| + 1 && forall k :: 0 <= k <= |ws| ==> index[k] == Index(ws, k)
    ensures r == Compacted(ws, |ws|)
  {
    hide Deleted; hide Rewritten; hide Index; hide Collected; hide Compacted; hide Instr.Imm24; hide Instr.Imm16;
    var n := |ws|;
    r := words;
    for i := 0 to |words|
      invariant |r| == |words|
      invariant forall k :: 0 <= k < i ==> r[k] == Remap(ws, words[k])
      invariant forall k :: i <= k < |words| ==> r[k] == words[k]
    {
      var w := r[i];
      if w.op == JUMP {
        r := r[i := w.SetImm24(index[Min(w.Imm24(), n)])];
      } else if IsCondJump(w.op) {
        r := r[i := w.SetImm16(index[Min(w.Imm16(), n)])];
      }
    }
    forall k | 0 <= k < |words| ensures r[k] == Compacted(ws, n)[k] {
      CollectedRemapped(ws, n, k);
    }
  }

  method RemapHandlers(ws: Text, hs: seq<Handler>, index: array<nat>) returns (r: seq<Handler>)
    requires index.Length == |ws| + 1 && forall k :: 0 <= k <= |ws| ==> index[k] == Index(ws, k)
    requires forall i :: 0 <= i < |hs| ==> hs[i].start <= |ws| && hs[i].end <= |ws| && hs[i].target <= |ws|
    ensures r == MapHandlers(ws, hs)
  {
    hide Index;
    r := [];
    for i := 0 to |hs|
      invariant r == MapHandlers(ws, hs[..i])
    {
      var h := Handler(index[hs[i].start], index[hs[i].end], index[hs[i].target], hs[i].depth);
      if h.end > h.start { r := r + [h]; }
      assert hs[..i + 1][..i] == hs[..i];
    }
    assert hs[..|hs|] == hs;
  }

  // ---- threading --------------------------------------------------------

  method ThreadPass(ws: Text) returns (r: Text, changed: bool)
    ensures r == Threaded(ws, |ws|) && (changed <==> Rewired(ws, |ws|))
  {
    hide Instr.Imm24; hide Instr.Imm16; hide Chase; hide Instr.SetImm16; hide Instr.SetImm24;
    r := ws;
    changed := false;
    for i := 0 to |ws|
      invariant r == Threaded(ws, i) && (changed <==> Rewired(ws, i))
    {
      var w := r[i];
      if w.op == JUMP {
        var t, hops := Hop(r, Some(i), w.Imm24());
        if hops > 0 { r := r[i := w.SetImm24(t)]; changed := true; }
      } else if IsCondJump(w.op) {
        var t, hops := Hop(r, None, w.Imm16());
        if hops > 0 { r := r[i := w.SetImm16(t)]; changed := true; }
      }
    }
  }

  method Hop(ws: Text, self: Option<nat>, start: nat) returns (t: nat, hops: nat)
    ensures (t, hops) == Chase(ws, self, start, 0)
  {
    hide Instr.Imm24;
    t, hops := start, 0;
    while hops < MAX_HOPS && self != Some(t) && t < |ws| && ws[t].op == JUMP
      invariant hops <= MAX_HOPS && Chase(ws, self, start, 0) == Chase(ws, self, t, hops)
      decreases MAX_HOPS - hops
    {
      t, hops := ws[t].Imm24(), hops + 1;
    }
  }

  // ---- the pass ---------------------------------------------------------

  class FunctionBytecode {
    var instrs: Text
    var spans: seq<SpanPair>
    var handlers: seq<Handler>
    const consts: seq<Val>

    ghost function Bytecode(): Code
      reads this
    {
      Code(instrs, consts, handlers)
    }

    // Spans stay aligned, and handlers inside the code (the source indexes by them).
    ghost predicate Aligned()
      reads this
    {
      && |spans| == |instrs|
      && forall i :: 0 <= i < |handlers| ==>
          handlers[i].start <= |instrs| && handlers[i].end <= |instrs| && handlers[i].target <= |instrs|
    }

    constructor (instrs: Text, spans: seq<SpanPair>, handlers: seq<Handler>, consts: seq<Val>)
      ensures Bytecode() == Code(instrs, consts, handlers) && this.spans == spans
    {
      this.instrs, this.spans, this.handlers, this.consts := instrs, spans, handlers, consts;
    }

    method Round() returns (changed: bool)
      requires Aligned()
      modifies this
      ensures Aligned() && Bytecode() == RoundOf(old(Bytecode())) && changed == Changed(old(Bytecode()))
      ensures spans == if AnyDeleted(old(instrs)) then KeptSpans(old(instrs), old(spans), |old(instrs)|) else old(spans)
    {
      hide Walk; hide Site; hide Deleted; hide Index; hide Collected; hide KeptSpans; hide Threaded; hide Rewired;
      hide Compacted; hide Rewritten; hide FoldedAway;
      if |instrs| == 0 {
        EmptyRound(Bytecode());
        return false;
      }
      ghost var ws := instrs;
      var width := Layout(instrs);
      var keep := new bool[|instrs|](_ => true);
      var out, folded := FoldPass(instrs, width, keep);
      var dead := DeadPass(instrs, out, width, keep);
      PayloadPass(instrs, width, keep);
      changed := folded || dead;
      MarkedDeleted(ws);
      if exists k :: 0 <= k < |instrs| && !keep[k] {
        var words, newSpans, index := Collect(instrs, out, spans, keep);
        words := RemapWords(instrs, words, index);
        handlers := RemapHandlers(instrs, handlers, index);
        HandlersIn(ws, old(handlers));
        instrs, spans := words, newSpans;
        changed := true;
      }
      assert Bytecode() == CompactCode(old(Bytecode())) by { NoneDeleted(ws); }
      var threaded;
      instrs, threaded := ThreadPass(instrs);
      changed := changed || threaded;
    }

    // At most eight rounds, until nothing changes.
    method Optimize()
      requires Aligned()
      modifies this
      ensures Aligned() && Bytecode() == Optimized(old(Bytecode()), MAX_ROUNDS)
    {
      hide RoundOf; hide Changed;
      var more := true;
      for k := 0 to MAX_ROUNDS
        invariant Aligned()
        invariant Optimized(old(Bytecode()), MAX_ROUNDS) == if more then Optimized(Bytecode(), MAX_ROUNDS - k)
                  else Bytecode()
      {
        if !more { break; }
        more := Round();
      }
    }
  }

  lemma EmptyRound(c: Code)
    requires c.instrs == []
    ensures RoundOf(c) == c && !Changed(c)
  {
  }

  lemma MarkedDeleted(ws: Text)
    ensures (exists h: nat :: Site(ws, h)) || (exists h: nat :: Dead(ws, h)) ==> AnyDeleted(ws)
  {
    hide Walk;
    if h: nat :| Site(ws, h) { assert Deleted(ws, h + 1); }
    if h: nat :| Dead(ws, h) { assert Deleted(ws, h); }
  }

  // Without deletions nothing was rewritten.
  lemma NoneDeleted(ws: Text)
    ensures !AnyDeleted(ws) ==> forall k :: 0 <= k < |ws| ==> Rewritten(ws, k) == ws[k]
  {
    hide Walk;
    forall k | 0 <= k < |ws| && Site(ws, k) ensures Deleted(ws, k + 1) && k + 1 < |ws| { }
  }

  lemma HandlersIn(ws: Text, hs: seq<Handler>)
    ensures var r := MapHandlers(ws, hs);
            forall i :: 0 <= i < |r| ==>
              r[i].start <= |Compacted(ws, |ws|)| && r[i].end <= |Compacted(ws, |ws|)|
              && r[i].target <= |Compacted(ws, |ws|)|
    decreases |hs|
  {
    hide Deleted; hide Index; hide Compacted;
    if hs != [] {
      var h := hs[|hs| - 1];
      HandlersIn(ws, hs[..|hs| - 1]);
      IndexMono(ws, Min(h.start, |ws|), |ws|);
      IndexMono(ws, Min(h.end, |ws|), |ws|);
      IndexMono(ws, Min(h.target, |ws|), |ws|);
    }
  }
}
