/**
 Stuttering simulation between two machines.  Because the machine is deterministic, a
 forward simulation that may not stutter forever gives both directions: the two runs
 end together, with matching results, or go on forever together.
 */
module Simulation {
  import opened Words
  import opened Machine

  // R(s, t, r): t matches s, and the second machine may wait at most r more steps.
  type Matching = (State, State, nat) -> bool

  // The same result and trace, and the same registers outside `dead`.
  ghost predicate SameOutside(f: Final, g: Final, dead: set<nat>) {
    f.res == g.res && f.tr == g.tr && AgreeOutside(f.regs, g.regs, dead)
  }

  ghost predicate AgreeOutside(r0: Regs, r1: Regs, dead: set<nat>) {
    forall r: nat :: r !in dead ==> Get(r0, r) == Get(r1, r)
  }

  // One step from s is matched from t: by some steps, or by waiting with a smaller rank.
  ghost predicate Follows(m1: Machine, m2: Machine, R: Matching, dead: set<nat>, s: State, t: State, r: nat) {
    match Step(m1, s)
    case Done(f) => exists k: nat, u, g :: Runs(m2, t, k, u) && Step(m2, u) == Done(g) && SameOutside(f, g, dead)
    case Running(s1) => exists k: nat, u, r1: nat :: Runs(m2, t, k, u) && R(s1, u, r1) && (k > 0 || r1 < r)
  }

  ghost predicate Simulates(m1: Machine, m2: Machine, R: Matching, dead: set<nat>) {
    forall s, t, r :: R(s, t, r) ==> Follows(m1, m2, R, dead, s, t, r)
  }

  lemma {:induction false} EndsMatch(m1: Machine, m2: Machine, R: Matching, dead: set<nat>, s: State, t: State, r: nat,
                                     n: nat, u: State, f: Final)
    returns (g: Final)
    requires Simulates(m1, m2, R, dead) && R(s, t, r) && Runs(m1, s, n, u) && Step(m1, u) == Done(f)
    ensures Converges(m2, t, g) && SameOutside(f, g, dead)
    decreases n
  {
    hide Step;
    assert Follows(m1, m2, R, dead, s, t, r);
    if n == 0 {
      var k: nat, v, g' :| Runs(m2, t, k, v) && Step(m2, v) == Done(g') && SameOutside(f, g', dead);
      g := g';
    } else {
      var s1 := Step(m1, s).s;
      var k: nat, v, r1: nat :| Runs(m2, t, k, v) && R(s1, v, r1) && (k > 0 || r1 < r);
      g := EndsMatch(m1, m2, R, dead, s1, v, r1, n - 1, u, f);
      Prepend(m2, t, k, v, g);
    }
  }

  lemma Prepend(m: Machine, s: State, k: nat, t: State, f: Final)
    requires Runs(m, s, k, t) && Converges(m, t, f)
    ensures Converges(m, s, f)
  {
    hide Step; hide Runs;
    var n: nat, u :| Runs(m, t, n, u) && Step(m, u) == Done(f);
    RunsTrans(m, s, k, t, n, u);
  }

  lemma {:induction false} LastsMatch(m1: Machine, m2: Machine, R: Matching, dead: set<nat>, s: State, t: State, r: nat,
                                      n: nat)
    requires Simulates(m1, m2, R, dead) && R(s, t, r) && Diverges(m1, s)
    ensures Lasts(m2, t, n)
    decreases n, r
  {
    hide Step;
    assert Runs(m2, t, 0, t);
    if n > 0 {
      assert Step(m1, s).Running? && Diverges(m1, Step(m1, s).s) by {
        assert Lasts(m1, s, 1);
        forall n: nat ensures Lasts(m1, Step(m1, s).s, n) {
          assert Lasts(m1, s, n + 1);
          var u :| Runs(m1, s, n + 1, u);
          assert Runs(m1, Step(m1, s).s, n, u);
        }
      }
      assert Follows(m1, m2, R, dead, s, t, r);
      var s1 := Step(m1, s).s;
      var k: nat, v, r1: nat :| Runs(m2, t, k, v) && R(s1, v, r1) && (k > 0 || r1 < r);
      if k >= n {
        var w := RunsSplit(m2, t, k, n, v);
      } else {
        LastsMatch(m1, m2, R, dead, s1, v, r1, n - k);
        var w :| Runs(m2, v, n - k, w);
        RunsTrans(m2, t, k, v, n - k, w);
      }
    }
  }

  // Every end of the first run is matched by an end of the second.
  ghost predicate Forward(m1: Machine, s: State, m2: Machine, t: State, dead: set<nat>) {
    forall f :: Converges(m1, s, f) ==> exists g :: Converges(m2, t, g) && SameOutside(f, g, dead)
  }

  // Every end of the second run is an end of the first.
  ghost predicate Backward(m1: Machine, s: State, m2: Machine, t: State, dead: set<nat>) {
    forall g :: Converges(m2, t, g) ==> exists f :: Converges(m1, s, f) && SameOutside(f, g, dead)
  }

  // Both machines behave alike from s and t.
  ghost predicate Alike(m1: Machine, s: State, m2: Machine, t: State, dead: set<nat>) {
    (Diverges(m1, s) <==> Diverges(m2, t)) && Forward(m1, s, m2, t, dead) && Backward(m1, s, m2, t, dead)
  }

  lemma SimulationBothWays(m1: Machine, m2: Machine, R: Matching, dead: set<nat>, s: State, t: State, r: nat)
    requires Simulates(m1, m2, R, dead) && R(s, t, r)
    ensures Alike(m1, s, m2, t, dead)
  {
    hide Step; hide Simulates;
    ConvergesOrDiverges(m1, s);
    ConvergesOrDiverges(m2, t);
    if Diverges(m1, s) {
      assert Diverges(m2, t) by {
        forall n: nat ensures Lasts(m2, t, n) {
          LastsMatch(m1, m2, R, dead, s, t, r, n);
        }
      }
    } else {
      var f :| Converges(m1, s, f);
      var g := EndMatch(m1, m2, R, dead, s, t, r, f);
    }
  }

  lemma EndMatch(m1: Machine, m2: Machine, R: Matching, dead: set<nat>, s: State, t: State, r: nat, f: Final)
    returns (g: Final)
    requires Simulates(m1, m2, R, dead) && R(s, t, r) && Converges(m1, s, f)
    ensures Converges(m2, t, g) && SameOutside(f, g, dead)
  {
    hide Step; hide Simulates; hide Runs;
    var n: nat, u :| Runs(m1, s, n, u) && Step(m1, u) == Done(f);
    g := EndsMatch(m1, m2, R, dead, s, t, r, n, u, f);
  }

  // Alike composes.
  lemma AlikeTrans(m1: Machine, s1: State, m2: Machine, s2: State, m3: Machine, s3: State, d1: set<nat>, d2: set<nat>)
    requires Alike(m1, s1, m2, s2, d1) && Alike(m2, s2, m3, s3, d2)
    ensures Alike(m1, s1, m3, s3, d1 + d2)
  {
    hide Forward; hide Backward; hide Diverges;
    ForwardTrans(m1, s1, m2, s2, m3, s3, d1, d2);
    BackwardTrans(m1, s1, m2, s2, m3, s3, d1, d2);
  }

  lemma ForwardTrans(m1: Machine, s1: State, m2: Machine, s2: State, m3: Machine, s3: State, d1: set<nat>, d2: set<nat>)
    requires Forward(m1, s1, m2, s2, d1) && Forward(m2, s2, m3, s3, d2)
    ensures Forward(m1, s1, m3, s3, d1 + d2)
  {
    hide Converges; hide SameOutside;
    forall f | Converges(m1, s1, f) ensures exists h :: Converges(m3, s3, h) && SameOutside(f, h, d1 + d2) {
      var g :| Converges(m2, s2, g) && SameOutside(f, g, d1);
      var h :| Converges(m3, s3, h) && SameOutside(g, h, d2);
      OutsideTrans(f, g, h, d1, d2);
    }
  }

  lemma BackwardTrans(m1: Machine, s1: State, m2: Machine, s2: State, m3: Machine, s3: State, d1: set<nat>,
                      d2: set<nat>)
    requires Backward(m1, s1, m2, s2, d1) && Backward(m2, s2, m3, s3, d2)
    ensures Backward(m1, s1, m3, s3, d1 + d2)
  {
    hide Converges; hide SameOutside;
    forall h | Converges(m3, s3, h) ensures exists f :: Converges(m1, s1, f) && SameOutside(f, h, d1 + d2) {
      var g :| Converges(m2, s2, g) && SameOutside(g, h, d2);
      var f :| Converges(m1, s1, f) && SameOutside(f, g, d1);
      OutsideTrans(f, g, h, d1, d2);
    }
  }

  lemma OutsideTrans(f: Final, g: Final, h: Final, d1: set<nat>, d2: set<nat>)
    requires SameOutside(f, g, d1) && SameOutside(g, h, d2)
    ensures SameOutside(f, h, d1 + d2)
  {
  }

  lemma AlikeRefl(m: Machine, s: State)
    ensures Alike(m, s, m, s, {})
  {
    hide Converges; hide Diverges;
    forall f | Converges(m, s, f) ensures SameOutside(f, f, {}) {
    }
  }

  // Using it in one direction.
  lemma AlikeForward(m1: Machine, s: State, m2: Machine, t: State, dead: set<nat>, f: Final) returns (g: Final)
    requires Alike(m1, s, m2, t, dead) && Converges(m1, s, f)
    ensures Converges(m2, t, g) && SameOutside(f, g, dead)
  {
    hide Converges; hide Diverges; hide SameOutside; hide Backward;
    assert Forward(m1, s, m2, t, dead);
    g :| Converges(m2, t, g) && SameOutside(f, g, dead);
  }

  lemma AlikeBackward(m1: Machine, s: State, m2: Machine, t: State, dead: set<nat>, g: Final) returns (f: Final)
    requires Alike(m1, s, m2, t, dead) && Converges(m2, t, g)
    ensures Converges(m1, s, f) && SameOutside(f, g, dead)
  {
    hide Converges; hide Diverges; hide SameOutside; hide Forward;
    assert Backward(m1, s, m2, t, dead);
    f :| Converges(m1, s, f) && SameOutside(f, g, dead);
  }

  lemma AlikeDiverges(m1: Machine, s: State, m2: Machine, t: State, dead: set<nat>)
    requires Alike(m1, s, m2, t, dead)
    ensures Diverges(m1, s) <==> Diverges(m2, t)
  {
    hide Converges; hide Diverges; hide Forward; hide Backward;
  }
}
