/**
 The peephole pass preserves meaning, round by round and as a whole.
 */
module PeepholeCorrect {
  import opened Words
  import opened Machine
  import opened Assembly
  import opened Simulation
  import opened PeepholeSpec
  import opened PeepholeLayout
  import opened PeepholeSafe
  import opened PeepholeThread
  import opened PeepholeCompact
  import opened PeepholeFold
  import opened PeepholeKeeps

  // ---- one round --------------------------------------------------------

  lemma ThreadAlike(m: Machine, s: State)
    requires Shaped(m.code) && s.pc == 0
    ensures Alike(m, s, ThreadMachine(m), s, {})
  {
    hide Shaped; hide Follows; hide Alike; hide Simulates;
    ThreadSimulates(m);
    assert Related(m.code.instrs, s, s, 0);
    SimulationBothWays(m, ThreadMachine(m), Matched(m.code.instrs), {}, s, s, 0);
  }

  // The machine after a round.
  function RoundMachine(m: Machine): Machine { m.(code := RoundOf(m.code)) }

  // One round preserves meaning in both directions: the original run ends with a
  // result if and only if the optimized run ends with that result, with the same
  // trace and the same registers except the folded temporaries; and it goes on
  // forever if and only if the optimized run does.
  lemma RoundAlike(m: Machine, s: State)
    requires Stable(m.code) && Clean(m.code.instrs) && s.pc == 0
    ensures Alike(m, s, RoundMachine(m), s, FoldedRegs(m.code.instrs))
  {
    var c := m.code;
    if AnyDeleted(c.instrs) {
      var m1 := CompactMachine(m);
      assert m1.code == Packed(c) == CompactCode(c);
      CompactAlike(m, s);
      ShapedPacked(c);
      ThreadAlike(m1, s);
      AlikeTrans(m, s, m1, s, ThreadMachine(m1), s, FoldedRegs(c.instrs), {});
      assert FoldedRegs(c.instrs) + {} == FoldedRegs(c.instrs);
    } else {
      assert FoldedRegs(c.instrs) == {} by {
        forall h: nat ensures !Site(c.instrs, h) {
          if Site(c.instrs, h) {
            assert h + 1 < |c.instrs| && Deleted(c.instrs, h + 1);
          }
        }
      }
      ThreadAlike(m, s);
    }
  }

  // What the pass relies on holds again after the round.
  lemma RoundStable(c: Code)
    requires Stable(c) && Clean(c.instrs)
    ensures Stable(RoundOf(c))
  {
    hide Clean; hide Disciplined; hide Shaped;
    var c1 := CompactCode(c);
    if AnyDeleted(c.instrs) {
      assert c1 == Packed(c);
      ShapedPacked(c);
      DisciplinedPacked(c);
    }
    ShapedThreaded(c1);
    DisciplinedThreaded(c1);
  }

  // ---- the whole pass ---------------------------------------------------

  // Every round the pass runs starts from clean code.
  ghost predicate CleanRounds(c: Code, k: nat)
    decreases k
  {
    k > 0 ==> Clean(c.instrs) && (Changed(c) ==> CleanRounds(RoundOf(c), k - 1))
  }

  // The temporaries folded away in any round.
  ghost function AllFolded(c: Code, k: nat): set<nat>
    decreases k
  {
    if k == 0 then {}
    else FoldedRegs(c.instrs) + if Changed(c) then AllFolded(RoundOf(c), k - 1) else {}
  }

  lemma {:induction false} OptimizeAlike(m: Machine, s: State, k: nat)
    requires Stable(m.code) && CleanRounds(m.code, k) && s.pc == 0
    ensures Alike(m, s, m.(code := Optimized(m.code, k)), s, AllFolded(m.code, k))
    ensures Stable(Optimized(m.code, k))
    decreases k
  {
    hide Clean; hide Alike; hide FoldedRegs; hide Stable; hide RoundOf; hide Changed;
    if k == 0 {
      AlikeRefl(m, s);
      assert m.(code := m.code) == m;
    } else {
      var m1 := RoundMachine(m);
      RoundAlike(m, s);
      RoundStable(m.code);
      if Changed(m.code) {
        OptimizeAlike(m1, s, k - 1);
        var m2 := m1.(code := Optimized(m1.code, k - 1));
        AlikeTrans(m, s, m1, s, m2, s, FoldedRegs(m.code.instrs), AllFolded(m1.code, k - 1));
        assert m2 == m.(code := Optimized(m.code, k));
      } else {
        assert FoldedRegs(m.code.instrs) + {} == FoldedRegs(m.code.instrs);
      }
    }
  }

  // `optimize` preserves meaning in both directions.
  lemma OptimizeCorrect(m: Machine, s: State)
    requires Stable(m.code) && CleanRounds(m.code, MAX_ROUNDS) && s.pc == 0
    ensures Alike(m, s, m.(code := Optimized(m.code, MAX_ROUNDS)), s, AllFolded(m.code, MAX_ROUNDS))
  {
    hide Stable; hide CleanRounds; hide Alike; hide AllFolded; hide Optimized;
    OptimizeAlike(m, s, MAX_ROUNDS);
  }
}
