/**
 The backpatching builder (crates/v12-bytecode/src/builder.rs).

 `Assembly` says what a list of emissions means: a branch is remembered with its
 label, and assembling replaces the label by the place it was bound to.
 `Builder.FunctionBuilder` is the source's data structure: placeholder words, a
 fixup list, and in-place patching at the end.
 */
module Assembly {
  import opened Words

  // One emission: a finished word, or a branch to a label.
  datatype Item = Raw(w: Instr) | Branch(op: Opcode, reg: Byte, target: nat)

  predicate Valid(it: Item) {
    it.Branch? ==> IsBranch(it.op)
  }

  // The word a branch starts out as, target zero.
  function Placeholder(op: Opcode, reg: Byte): Instr {
    if op == JUMP then Instr(JUMP, 0, 0, 0) else Instr(op, reg, 0, 0)
  }

  function Patch(w: Instr, wideTarget: bool, pc: nat): Instr {
    if wideTarget then w.SetImm24(pc) else w.SetImm16(pc)
  }

  function Target(labels: seq<Option<nat>>, l: nat): nat {
    if l < |labels| && labels[l].Some? then labels[l].value else 0
  }

  function Resolve(it: Item, labels: seq<Option<nat>>): Instr {
    match it
    case Raw(w) => w
    case Branch(op, reg, l) => Patch(Placeholder(op, reg), op == JUMP, Target(labels, l))
  }

  function ResolveAll(items: seq<Item>, labels: seq<Option<nat>>): (ws: seq<Instr>)
    ensures |ws| == |items|
    ensures forall i :: 0 <= i < |items| ==> ws[i] == Resolve(items[i], labels)
  {
    seq(|items|, i requires 0 <= i < |items| => Resolve(items[i], labels))
  }

  // Patching keeps the opcode and a conditional branch's register, and the
  // target reads back as long as it fits the immediate.
  lemma PatchedBranch(op: Opcode, reg: Byte, pc: nat)
    requires IsBranch(op) && pc < 0x1_0000
    ensures var w := Patch(Placeholder(op, reg), op == JUMP, pc);
            BranchTarget(w) == pc && w.op == op && (op != JUMP ==> w.a == reg)
  {
  }

  // Where a resolved word branches to.
  function BranchTarget(w: Instr): nat {
    if w.op == JUMP then w.Imm24() else w.Imm16()
  }
}

module Builder {
  import opened Words
  import opened Assembly
  import opened Machine

  type SpanPair = (nat, nat)

  datatype Fixup = Fixup(at: nat, target: nat, wideTarget: bool)

  class FunctionBuilder {
    var instrs: seq<Instr>
    var spans: seq<SpanPair>
    var consts: seq<Val>
    var handlers: seq<Handler>
    var labels: seq<Option<nat>>
    var fixups: seq<Fixup>
    var maxRegs: nat
    // What has been emitted so far, with branches still symbolic.
    ghost var items: seq<Item>

    ghost predicate Ok()
      reads this
    {
      && |spans| == |instrs| == |items|
      && FixupsOk(fixups, items, |labels|)
      && (forall i :: 0 <= i < |items| ==> Valid(items[i]))
      && (forall i :: 0 <= i < |items| ==>
            instrs[i] == if items[i].Raw? then items[i].w else Placeholder(items[i].op, items[i].reg))
      && 1 <= maxRegs
    }

    // The fixups list exactly the branches, in emission order.
    static ghost predicate FixupsOk(fs: seq<Fixup>, items: seq<Item>, nlabels: nat) {
      && (forall k :: 0 <= k < |fs| ==>
            && fs[k].at < |items| && fs[k].target < nlabels
            && items[fs[k].at] .Branch? && items[fs[k].at].target == fs[k].target
            && fs[k].wideTarget == (items[fs[k].at].op == JUMP))
      && (forall j, k :: 0 <= j < k < |fs| ==> fs[j].at < fs[k].at)
      && (forall i :: 0 <= i < |items| && items[i].Branch? ==>
            exists k :: 0 <= k < |fs| && fs[k].at == i)
    }

    constructor ()
      ensures Ok() && items == [] && labels == [] && consts == [] && handlers == [] && maxRegs == 1
      ensures fixups == []
    {
      instrs, spans, consts, handlers, labels, fixups, items := [], [], [], [], [], [], [];
      maxRegs := 1;
    }

    method ReserveRegs(count: nat)
      requires Ok()
      modifies this`maxRegs
      ensures Ok() && maxRegs == if count > old(maxRegs) then count else old(maxRegs)
    {
      if count > maxRegs { maxRegs := count; }
    }

    method NewLabel() returns (l: nat)
      requires Ok()
      modifies this`labels
      ensures Ok() && l == |old(labels)| && labels == old(labels) + [None]
    {
      l := |labels|;
      labels := labels + [None];
    }

    // Double binding is a bug of the caller: the source asserts it away.
    method Bind(l: nat)
      requires Ok()
      requires l < |labels| && labels[l].None?
      modifies this`labels
      ensures Ok() && labels == old(labels)[l := Some(|items|)]
    {
      labels := labels[l := Some(|instrs|)];
    }

    method EmitSpanned(w: Instr, span: SpanPair)
      requires Ok()
      modifies this`instrs, this`spans, this`items
      ensures Ok() && items == old(items) + [Raw(w)] && spans == old(spans) + [span]
    {
      instrs := instrs + [w];
      spans := spans + [span];
      items := items + [Raw(w)];
      FixupsGrow(fixups, old(items), Raw(w), |labels|);
    }

    static lemma FixupsGrow(fs: seq<Fixup>, items: seq<Item>, it: Item, nlabels: nat)
      requires FixupsOk(fs, items, nlabels) && it.Raw?
      ensures FixupsOk(fs, items + [it], nlabels)
    {
      var more := items + [it];
      forall i | 0 <= i < |more| && more[i].Branch?
        ensures exists k :: 0 <= k < |fs| && fs[k].at == i
      {
        assert items[i].Branch?;
      }
    }

    method EmitJump(op: Opcode, reg: Byte, l: nat)
      requires Ok()
      requires IsBranch(op) && l < |labels|
      modifies this`instrs, this`spans, this`items, this`fixups
      ensures Ok() && items == old(items) + [Branch(op, reg, l)] && spans == old(spans) + [(0, 0)]
    {
      var at := |instrs|;
      instrs := instrs + [Placeholder(op, reg)];
      spans := spans + [(0, 0)];
      items := items + [Branch(op, reg, l)];
      fixups := fixups + [Fixup(at, l, op == JUMP)];
      forall i | 0 <= i < |items| && items[i].Branch?
        ensures exists k :: 0 <= k < |fixups| && fixups[k].at == i
      {
        if i < at {
          assert old(items)[i].Branch?;
          var k :| 0 <= k < |old(fixups)| && old(fixups)[k].at == i;
          assert fixups[k].at == i;
        } else {
          assert fixups[|fixups| - 1].at == i;
        }
      }
    }

    // A constant already pooled keeps its index; a full pool reports an error.
    method AddConst(v: Val) returns (k: Option<nat>)
      requires Ok()
      modifies this`consts
      ensures Ok() && old(consts) <= consts
      ensures k.Some? ==> k.value < |consts| && consts[k.value] == v && forall i :: 0 <= i < k.value ==> consts[i] != v
      ensures consts == if v in old(consts) || k.None? then old(consts) else old(consts) + [v]
      ensures k.None? <==> v !in old(consts) && |old(consts)| >= 65535
      ensures k.Some? && v !in old(consts) ==> k.value == |old(consts)|
    {
      for i := 0 to |consts|
        invariant consts == old(consts)
        invariant forall j :: 0 <= j < i ==> consts[j] != v
      {
        if consts[i] == v { return Some(i); }
      }
      if |consts| >= 65535 { return None; }
      k := Some(|consts|);
      consts := consts + [v];
    }

    method PushHandler(h: Handler)
      requires Ok()
      modifies this`handlers
      ensures Ok() && handlers == old(handlers) + [h]
    {
      handlers := handlers + [h];
    }

    // Resolves every label.  Unbound labels are a bug of the caller, as is a
    // conditional branch to a place past the 16-bit window.
    method Finish() returns (code: seq<Instr>)
      requires Ok()
      requires forall l :: 0 <= l < |labels| ==> labels[l].Some? && labels[l].value < 0x1_0000
      modifies this`instrs, this`fixups
      ensures |code| == |items| == |spans|
      ensures code == ResolveAll(items, labels) == instrs
      ensures forall i :: 0 <= i < |items| && items[i].Raw? ==> code[i] == items[i].w
      ensures forall i :: 0 <= i < |items| && items[i].Branch? ==>
                && items[i].target < |labels|
                && BranchTarget(code[i]) == labels[items[i].target].value
                && code[i].op == items[i].op
                && (items[i].op != JUMP ==> code[i].a == items[i].reg)
    {
      hide Patch;
      hide BranchTarget;
      ghost var start := instrs;
      for n := 0 to |fixups|
        invariant |instrs| == |items| && |spans| == |items|
        invariant fixups == old(fixups)
        invariant forall i :: 0 <= i < |items| && items[i].Raw? ==> instrs[i] == items[i].w
        invariant forall k :: n <= k < |fixups| ==> instrs[fixups[k].at] == start[fixups[k].at]
        invariant forall k :: 0 <= k < n ==>
                    instrs[fixups[k].at] == Resolve(items[fixups[k].at], labels)
      {
        var f := fixups[n];
        var t := labels[f.target].value;
        instrs := instrs[f.at := Patch(instrs[f.at], f.wideTarget, t)];
      }
      code := instrs;
      fixups := [];
      forall i | 0 <= i < |items|
        ensures code[i] == Resolve(items[i], labels)
        ensures items[i].Branch? ==>
                  && items[i].target < |labels|
                  && BranchTarget(code[i]) == labels[items[i].target].value
                  && code[i].op == items[i].op
                  && (items[i].op != JUMP ==> code[i].a == items[i].reg)
      {
        if items[i].Branch? {
          var k :| 0 <= k < |old(fixups)| && old(fixups)[k].at == i;
          PatchedBranch(items[i].op, items[i].reg, labels[items[i].target].value);
        }
      }
    }
  }
}
