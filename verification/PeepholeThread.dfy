/**
 Jump threading preserves meaning: a threaded branch goes where following the original
 jumps one by one would have led, so the threaded machine is merely ahead.
 */
module PeepholeThread {
  import opened Words
  import opened Machine
  import opened Assembly
  import opened Simulation
  import opened PeepholeSpec
  import opened PeepholeLayout
  import opened PeepholeSafe

  // Where h unconditional jumps from t lead.
  function Follow(ws: Text, t: nat, h: nat): nat
    decreases h
  {
    if h == 0 || t >= |ws| || ws[t].op != JUMP then t else Follow(ws, ws[t].Imm24(), h - 1)
  }

  lemma {:induction false} FollowTrans(ws: Text, t: nat, a: nat, b: nat)
    ensures Follow(ws, Follow(ws, t, a), b) == Follow(ws, t, a + b)
    decreases a
  {
    hide Instr.Imm24;
    if !(a == 0 || t >= |ws| || ws[t].op != JUMP) {
      FollowTrans(ws, ws[t].Imm24(), a - 1, b);
    }
  }

  lemma {:induction false} FollowPlace(ws: Text, t: nat, h: nat)
    requires TargetsOk(ws) && Place(ws, t)
    ensures Place(ws, Follow(ws, t, h))
    decreases h
  {
    hide Place; hide Instr.Imm24;
    if !(h == 0 || t >= |ws| || ws[t].op != JUMP) {
      assert BranchTarget(ws[t]) == ws[t].Imm24();
      FollowPlace(ws, ws[t].Imm24(), h - 1);
    }
  }

  // w' is w with its target some jumps further along.
  ghost predicate Forwarded(ws: Text, w: Instr, w': Instr) {
    if IsBranch(w.op) then
      && w'.op == w.op && (w.op != JUMP ==> w'.a == w.a)
      && exists h: nat :: BranchTarget(w') == Follow(ws, BranchTarget(w), h)
    else w' == w
  }

  ghost predicate AllForwarded(ws: Text, r: Text) {
    |r| == |ws| && forall i :: 0 <= i < |ws| ==> Forwarded(ws, ws[i], r[i])
  }

  // Chasing through already threaded jumps follows the original ones.
  lemma {:induction false} ChaseFollows(ws: Text, r: Text, self: Option<nat>, t: nat, hops: nat) returns (h: nat)
    requires AllForwarded(ws, r)
    ensures Chase(r, self, t, hops).0 == Follow(ws, t, h)
    decreases MAX_HOPS - hops
  {
    hide Instr.Imm24; hide Instr.Imm16;
    if hops >= MAX_HOPS || self == Some(t) || t >= |r| || r[t].op != JUMP {
      h := 0;
    } else {
      assert Forwarded(ws, ws[t], r[t]);
      var a: nat :| BranchTarget(r[t]) == Follow(ws, BranchTarget(ws[t]), a);
      h := ChaseFollows(ws, r, self, r[t].Imm24(), hops + 1);
      FollowTrans(ws, ws[t].Imm24(), a, h);
      h := a + h + 1;
    }
  }

  lemma {:induction false} ThreadedForward(ws: Text, k: nat)
    requires k <= |ws| < 0x1_0000 && TargetsOk(ws)
    ensures AllForwarded(ws, Threaded(ws, k))
    decreases k
  {
    if k == 0 {
      forall i | 0 <= i < |ws| ensures Forwarded(ws, ws[i], ws[i]) {
        assert Forwarded(ws, ws[i], ws[i]) by {
          assert BranchTarget(ws[i]) == Follow(ws, BranchTarget(ws[i]), 0);
        }
      }
    } else {
      ThreadedForward(ws, k - 1);
      var r := Threaded(ws, k - 1);
      ThreadWordForward(ws, r, k - 1);
    }
  }

  lemma ForwardedAt(ws: Text, r: Text, i: nat)
    requires AllForwarded(ws, r) && i < |ws|
    ensures |r| == |ws| && Forwarded(ws, ws[i], r[i])
  {
  }

  lemma ThreadWordForward(ws: Text, r: Text, i: nat)
    requires AllForwarded(ws, r) && i < |ws| == |r| && |ws| < 0x1_0000 && TargetsOk(ws)
    ensures Forwarded(ws, ws[i], ThreadWord(r, i))
  {
    hide Instr.Imm24; hide Instr.Imm16; hide Instr.SetImm16; hide Instr.SetImm24; hide Walk; hide Chase; hide Follow;
    hide AllForwarded;
    ForwardedAt(ws, r, i);
    if IsBranch(ws[i].op) {
      var a: nat :| BranchTarget(r[i]) == Follow(ws, BranchTarget(ws[i]), a);
      var self := if r[i].op == JUMP then Some(i) else None;
      var h := ChaseFollows(ws, r, self, BranchTarget(r[i]), 0);
      FollowTrans(ws, BranchTarget(ws[i]), a, h);
      FollowPlace(ws, BranchTarget(ws[i]), a + h);
      assert BranchTarget(ThreadWord(r, i)) ==
        Follow(ws, BranchTarget(ws[i]), if ThreadWord(r, i) == r[i] then a else a + h);
    }
  }

  // ---- simulation -------------------------------------------------------

  // An instruction decodes the same after threading, up to its target.
  lemma DecodeThreaded(ws: Text, r: Text, pc: nat)
    requires AllForwarded(ws, r) && PayloadOk(ws) && IsHead(ws, true, pc)
    ensures var (d, d') := (Decode(ws, pc), Decode(r, pc));
            if d.None? then d'.None?
            else
              && d'.Some? && SameButTarget(d.value, d'.value) && d'.value.width == d.value.width
              && (IsBranch(d.value.op) ==> exists h: nat :: BranchOf(d'.value) == Follow(ws, BranchOf(d.value), h))
  {
    hide Instr.Imm24; hide Instr.Imm16; hide Walk; hide Follow;
    var w := ws[pc];
    assert Forwarded(ws, ws[pc], r[pc]);
    if IsBranch(w.op) {
      var h: nat :| BranchTarget(r[pc]) == Follow(ws, BranchTarget(w), h);
      assert BranchOf(Decode(r, pc).value) == Follow(ws, BranchOf(Decode(ws, pc).value), h);
    }
    if w.op == WIDE && w.c <= MAX_DISC && pc + WideWidth(w.c) <= |ws| {
      forall k | pc < k < pc + WideWidth(w.c) ensures r[k] == ws[k] {
        assert Forwarded(ws, ws[k], r[k]);
        assert pc < k < pc + WordWidth(ws, pc);
      }
      assert r[pc + 1..pc + WideWidth(w.c)] == ws[pc + 1..pc + WideWidth(w.c)];
      if w.c == REG_EXT && pc + 2 < |ws| {
        var (n, n') := (ws[pc + 2], r[pc + 2]);
        assert Forwarded(ws, n, n');
        if IsBranch(n.op) {
          var h: nat :| BranchTarget(n') == Follow(ws, BranchTarget(n), h);
          assert BranchOf(Decode(r, pc).value) == Follow(ws, BranchOf(Decode(ws, pc).value), h);
        }
      }
    }
  }

  ghost predicate Related(ws: Text, s: State, t: State, h: nat) {
    AgreeOutside(s.regs, t.regs, {}) && s.tr == t.tr && Place(ws, s.pc) && t.pc == Follow(ws, s.pc, h)
  }

  ghost function Matched(ws: Text): Matching { (s: State, t: State, h: nat) => Related(ws, s, t, h) }

  // The machine that runs the threaded code.
  function ThreadMachine(m: Machine): Machine { m.(code := ThreadCode(m.code)) }

  lemma ThreadSimulates(m: Machine)
    requires Shaped(m.code)
    ensures Simulates(m, ThreadMachine(m), Matched(m.code.instrs), {})
  {
    hide Shaped; hide Related; hide Follows;
    var R := Matched(m.code.instrs);
    forall s, t, h: nat | R(s, t, h) ensures Follows(m, ThreadMachine(m), R, {}, s, t, h) {
      ThreadStep(m, s, t, h);
    }
  }

  lemma ThreadStep(m: Machine, s: State, t: State, h: nat)
    requires Shaped(m.code) && Related(m.code.instrs, s, t, h)
    ensures Follows(m, ThreadMachine(m), Matched(m.code.instrs), {}, s, t, h)
  {
    hide FindHandler;

    var ws := m.code.instrs;
    var m2 := ThreadMachine(m);
    var R := Matched(ws);
    if h > 0 && s.pc < |ws| && ws[s.pc].op == JUMP {
      var s1 := State(ws[s.pc].Imm24(), s.regs, s.tr);
      assert BranchTarget(ws[s.pc]) == ws[s.pc].Imm24();
      assert R(s1, t, h - 1);
      Waits(m, m2, R, {}, s, s1, t, h, h - 1);
    } else if s.pc == |ws| {
      assert Step(m, s) == Done(Final(Returned(Undefined), s.regs, s.tr));
      assert Step(m2, t) == Done(Final(Returned(Undefined), t.regs, t.tr));
      Finishes(m, m2, R, {}, s, t, h);
    } else {
      ThreadLockstep(m, s, t, h);
    }
  }

  // The second machine waits.
  lemma Waits(m1: Machine, m2: Machine, R: Matching, dead: set<nat>, s: State, s1: State, t: State, r: nat, r1: nat)
    requires Step(m1, s) == Running(s1) && R(s1, t, r1) && r1 < r
    ensures Follows(m1, m2, R, dead, s, t, r)
  {
    hide Step;
    assert Runs(m2, t, 0, t);
  }

  // Both machines take a step.
  lemma Steps(m1: Machine, m2: Machine, R: Matching, dead: set<nat>, s: State, s1: State, t: State, t1: State, r: nat,
              r1: nat)
    requires Step(m1, s) == Running(s1) && Step(m2, t) == Running(t1) && R(s1, t1, r1)
    ensures Follows(m1, m2, R, dead, s, t, r)
  {
    hide Step;
    RunsOne(m2, t);
  }

  // Both machines stop.
  lemma Finishes(m1: Machine, m2: Machine, R: Matching, dead: set<nat>, s: State, t: State, r: nat)
    requires Step(m1, s).Done? && Step(m2, t).Done? && SameOutside(Step(m1, s).f, Step(m2, t).f, dead)
    ensures Follows(m1, m2, R, dead, s, t, r)
  {
    hide Step;
    assert Runs(m2, t, 0, t);
  }

  lemma ThreadLockstep(m: Machine, s: State, t: State, h: nat)
    requires Shaped(m.code) && Related(m.code.instrs, s, t, h)
    requires s.pc < |m.code.instrs| && (h == 0 || m.code.instrs[s.pc].op != JUMP)
    ensures Follows(m, ThreadMachine(m), Matched(m.code.instrs), {}, s, t, h)
  {
    hide Exec; hide Decode; hide Runs; hide Threaded; hide Walk; hide Instr.Imm24; hide Instr.Imm16; hide Follows;
    hide UsesOf; hide AllForwarded;
    hide PayloadOk; hide TargetsOk;
    var ws := m.code.instrs;
    var m2 := ThreadMachine(m);
    var R := Matched(ws);
    ThreadedForward(ws, |ws|);
    var r := m2.code.instrs;
    assert t.pc == s.pc;
    DecodeThreaded(ws, r, s.pc);
    var d, d' := Decode(ws, s.pc), Decode(r, s.pc);
    if d.None? {
      Finishes(m, m2, R, {}, s, t, h);
      return;
    }
    DecodedOk(ws, s.pc); DecodedOk(r, s.pc);
    Lockstep(m.code, m2.code, m.host, d.value, d'.value, s.regs, t.regs, s.tr, {});
    var e := EffectAt(m, s);
    var e' := EffectAt(m2, t);
    match e
    case Next(regs, tr) =>
      NextPlace(ws, s.pc);
      var s1 := State(s.pc + d.value.width, regs, tr);
      assert Follow(ws, s1.pc, 0) == s1.pc;
      Steps(m, m2, R, {}, s, s1, t, State(s1.pc, e'.regs, tr), h, 0);
    case Goto(pc) =>
      BranchPlace(ws, s.pc);
      var k: nat :| BranchOf(d'.value) == Follow(ws, BranchOf(d.value), k);
      Steps(m, m2, R, {}, s, State(pc, s.regs, s.tr), t, State(e'.pc, t.regs, t.tr), h, k);
    case Halt(_) => Finishes(m, m2, R, {}, s, t, h);
    case Bad => Finishes(m, m2, R, {}, s, t, h);
    case Raise(v, tr) =>
      var f := FindHandler(m.code.handlers, s.pc);
      if f.None? {
        Finishes(m, m2, R, {}, s, t, h);
      } else {
        var s1 := State(f.value.target, Deliver(s.regs, f.value.depth, v, m.truncates), tr);
        assert Follow(ws, s1.pc, 0) == s1.pc;
        DeliverAgree(s.regs, t.regs, f.value.depth, v, m.truncates, {});
        Steps(m, m2, R, {}, s, s1, t, State(s1.pc, Deliver(t.regs, f.value.depth, v, m.truncates), tr), h, 0);
      }
  }

  lemma DecodedOk(ws: Text, pc: nat)
    requires Decode(ws, pc).Some?
    ensures Decoded(Decode(ws, pc).value)
  {
  }

  lemma DeliverAgree(r0: Regs, r1: Regs, depth: nat, v: Val, truncates: bool, dead: set<nat>)
    requires AgreeOutside(r0, r1, dead)
    ensures AgreeOutside(Deliver(r0, depth, v, truncates), Deliver(r1, depth, v, truncates), dead)
  {
  }

  // A branch instruction goes to a place.
  lemma BranchPlace(ws: Text, pc: nat)
    requires TargetsOk(ws) && Decode(ws, pc).Some? && IsBranch(Decode(ws, pc).value.op)
    ensures Place(ws, BranchOf(Decode(ws, pc).value))
  {
    hide Walk; hide Instr.Imm24; hide Instr.Imm16;
    var l := Decode(ws, pc).value;
    var k := if ws[pc].op == WIDE then pc + 2 else pc;
    assert l.word == ws[k] && IsBranch(ws[k].op) && BranchOf(l) == BranchTarget(ws[k]);
  }
}
