/**
 CaseBlockEvaluation (section 14.12.2 of ECMA-262) as the standard writes it, with its
 three lists and its found flags, and the proof that the evaluator's "select, then run
 from there" is the same thing.
 */
module Switches {
  import opened Words
  import opened Machine
  import opened Source

  // ---- the standard's algorithm -------------------------------------------

  // The clauses in front of the default clause, or all of them.
  function Front(cs: Cases): Cases {
    if cs.NoCase? || cs.test.None? then NoCase else Case(cs.test, cs.body, Front(cs.rest))
  }

  // The default clause and what follows it.
  function FromDefault(cs: Cases): Cases {
    if cs.NoCase? || cs.test.None? then cs else FromDefault(cs.rest)
  }

  // A list of clauses: until one is found each test is evaluated and compared; from
  // then on the bodies run, without tests.
  function Clauses(h: Host, cs: Cases, d: Val, found: bool, st: Store, tr: Trace, fuel: nat): (bool, SRes)
    decreases cs
  {
    match cs
    case NoCase => (found, SRes(Normal, st, tr))
    case Case(t, body, rest) =>
      var v := if found || t.None? then Value(d, st, tr) else Eval(h, t.value, st, tr);
      if v.Thrown? then (false, SRes(Thr(v.v), v.st, v.tr))
      else if found || (t.Some? && StrictEq(d, v.v)) then
        var r := ExecAll(h, body, v.st, v.tr, fuel);
        if r.c.Normal? then Clauses(h, rest, d, true, r.st, r.tr, fuel) else (true, r)
      else Clauses(h, rest, d, false, v.st, v.tr, fuel)
  }

  // The whole block: the list in front; if nothing was found there, the list behind
  // the default clause; if nothing was found at all, the default clause and that
  // list's bodies.
  function CaseBlock(h: Host, cs: Cases, d: Val, st: Store, tr: Trace, fuel: nat): SRes {
    var (found, a) := Clauses(h, Front(cs), d, false, st, tr, fuel);
    var tail := FromDefault(cs);
    if !a.c.Normal? || tail.NoCase? then a
    else if found then Default(h, tail, a.st, a.tr, fuel)
    else
      var (foundB, b) := Clauses(h, tail.rest, d, false, a.st, a.tr, fuel);
      if !b.c.Normal? || foundB then b else Default(h, tail, b.st, b.tr, fuel)
  }

  // The default clause's body, then the bodies behind it.
  function Default(h: Host, tail: Cases, st: Store, tr: Trace, fuel: nat): SRes
    requires tail.Case?
  {
    var r := ExecAll(h, tail.body, st, tr, fuel);
    if r.c.Normal? then Clauses(h, tail.rest, Undefined, true, r.st, r.tr, fuel).1 else r
  }

  // ---- the evaluator's form -------------------------------------------------

  // Select a clause, then run the bodies from there.
  function Selected(h: Host, cs: Cases, d: Val, st: Store, tr: Trace, fuel: nat): SRes {
    var (sel, t) := Select(h, cs, d, st, tr);
    if t.Thrown? then SRes(Thr(t.v), t.st, t.tr) else ExecCases(h, cs, sel, t.st, t.tr, fuel)
  }

  // Once found, a list runs its bodies in order.
  lemma {:induction false} FoundRuns(h: Host, cs: Cases, d: Val, st: Store, tr: Trace, fuel: nat)
    ensures Clauses(h, cs, d, true, st, tr, fuel) == (true, ExecCases(h, cs, Some(0), st, tr, fuel))
    decreases cs
  {
    hide ExecAll;
    if cs.Case? {
      var r := ExecAll(h, cs.body, st, tr, fuel);
      if r.c.Normal? { FoundRuns(h, cs.rest, d, r.st, r.tr, fuel); }
    }
  }

  // A list without default clause runs from its first match, or only its tests.
  lemma {:induction false} ListRuns(h: Host, cs: Cases, d: Val, st: Store, tr: Trace, fuel: nat)
    requires Defaults(cs) == 0
    ensures var (i, t) := FirstMatch(h, cs, d, st, tr);
            Clauses(h, cs, d, false, st, tr, fuel) ==
            if t.Thrown? then (false, SRes(Thr(t.v), t.st, t.tr))
            else if i.Some? then (true, ExecCases(h, cs, i, t.st, t.tr, fuel))
            else (false, SRes(Normal, t.st, t.tr))
    ensures FirstMatch(h, cs, d, st, tr).1.Thrown? ==> FirstMatch(h, cs, d, st, tr).0.None?
    decreases cs
  {
    hide ExecAll; hide Eval;
    if cs.Case? {
      var v := Eval(h, cs.test.value, st, tr);
      if v.Value? {
        if StrictEq(d, v.v) {
          var r := ExecAll(h, cs.body, v.st, v.tr, fuel);
          if r.c.Normal? { FoundRuns(h, cs.rest, d, r.st, r.tr, fuel); }
        } else {
          ListRuns(h, cs.rest, d, v.st, v.tr, fuel);
        }
      }
    }
  }

  function Length(cs: Cases): nat { if cs.NoCase? then 0 else 1 + Length(cs.rest) }

  // The shape of the two lists.
  lemma {:induction false} ListsOf(cs: Cases)
    requires Defaults(cs) <= 1
    ensures Defaults(Front(cs)) == 0
    ensures FromDefault(cs).Case? ==> FromDefault(cs).test.None? && Defaults(FromDefault(cs).rest) == 0
    ensures FromDefault(cs).NoCase? ==> Front(cs) == cs && DefaultIndex(cs).None?
    ensures FromDefault(cs).Case? ==> DefaultIndex(cs) == Some(Length(Front(cs)))
    decreases cs
  {
    if cs.Case? && cs.test.Some? { ListsOf(cs.rest); }
  }

  // The search over the whole list: the front first, then what is behind.
  function SplitMatch(h: Host, cs: Cases, d: Val, st: Store, tr: Trace): (Option<nat>, ERes) {
    var (i, t) := FirstMatch(h, Front(cs), d, st, tr);
    if t.Thrown? || i.Some? || FromDefault(cs).NoCase? then (i, t)
    else
      var (j, u) := FirstMatch(h, FromDefault(cs).rest, d, t.st, t.tr);
      (if j.Some? then Some(Length(Front(cs)) + 1 + j.value) else None, u)
  }

  // A match in front is a match of the whole; otherwise the search goes on behind.
  lemma {:induction false} MatchSplits(h: Host, cs: Cases, d: Val, st: Store, tr: Trace)
    ensures FirstMatch(h, cs, d, st, tr) == SplitMatch(h, cs, d, st, tr)
    decreases cs
  {
    assert FirstMatch(h, NoCase, d, st, tr) == (None, Value(Undefined, st, tr));
    if cs.Case? {
      if cs.test.None? {
      } else {
        var v := Eval(h, cs.test.value, st, tr);
        MatchStep(h, cs, cs.rest, d, st, tr);
        MatchStep(h, cs, Front(cs.rest), d, st, tr);
        if v.Value? && !StrictEq(d, v.v) { MatchSplits(h, cs.rest, d, v.st, v.tr); }
      }
    }
  }

  lemma MatchStep(h: Host, cs: Cases, rest: Cases, d: Val, st: Store, tr: Trace)
    requires cs.Case? && cs.test.Some?
    ensures var v := Eval(h, cs.test.value, st, tr);
            FirstMatch(h, Case(cs.test, cs.body, rest), d, st, tr) ==
            if v.Thrown? then (None, v) else if StrictEq(d, v.v) then (Some(0), v)
            else
              var (i, r) := FirstMatch(h, rest, d, v.st, v.tr);
              (if i.Some? then Some(i.value + 1) else None, r)
  {
    hide Eval;
  }

  // Running from a clause in front goes on into the default clause and behind it.
  lemma {:induction false} RunSplits(h: Host, cs: Cases, k: nat, st: Store, tr: Trace, fuel: nat)
    requires k <= Length(Front(cs))
    ensures var a := ExecCases(h, Front(cs), Some(k), st, tr, fuel);
            ExecCases(h, cs, Some(k), st, tr, fuel) == if a.c.Normal? then
              ExecCases(h, FromDefault(cs), Some(0), a.st, a.tr, fuel) else a
    decreases cs
  {
    hide ExecAll;
    if cs.Case? && cs.test.Some? {
      if k > 0 {
        RunSplits(h, cs.rest, k - 1, st, tr, fuel);
      } else {
        var r := ExecAll(h, cs.body, st, tr, fuel);
        if r.c.Normal? { RunSplits(h, cs.rest, 0, r.st, r.tr, fuel); }
      }
    } else {
    }
  }

  // Running from behind the default clause.
  lemma {:induction false} RunBehind(h: Host, cs: Cases, j: nat, st: Store, tr: Trace, fuel: nat)
    requires FromDefault(cs).Case?
    ensures ExecCases(h, cs, Some(Length(Front(cs)) + 1 + j), st, tr, fuel) ==
            ExecCases(h, FromDefault(cs).rest, Some(j), st, tr, fuel)
    decreases cs
  {
    hide ExecAll;
    if cs.test.Some? { RunBehind(h, cs.rest, j, st, tr, fuel); }
  }

  lemma {:induction false} MatchInside(h: Host, cs: Cases, d: Val, st: Store, tr: Trace)
    ensures var i := FirstMatch(h, cs, d, st, tr).0; i.Some? ==> i.value < Length(cs)
    decreases cs
  {
    hide Eval;
    if cs.Case? {
      var v := if cs.test.None? then Value(d, st, tr) else Eval(h, cs.test.value, st, tr);
      MatchInside(h, cs.rest, d, v.st, v.tr);
    }
  }

  // The evaluator runs a switch as CaseBlockEvaluation does, for any list of clauses
  // with at most one default clause, in any position.
  lemma SelectedIsCaseBlock(h: Host, cs: Cases, d: Val, st: Store, tr: Trace, fuel: nat)
    requires Defaults(cs) <= 1
    ensures Selected(h, cs, d, st, tr, fuel) == CaseBlock(h, cs, d, st, tr, fuel)
  {
    hide ExecAll; hide Eval; hide FirstMatch; hide Clauses; hide ExecCases; hide Front; hide FromDefault; hide Length;
    hide DefaultIndex; hide Default;

    ListsOf(cs);
    var t := FirstMatch(h, Front(cs), d, st, tr).1;
    if t.Thrown? || FromDefault(cs).NoCase? {
      assert Selected(h, cs, d, st, tr, fuel) == CaseBlock(h, cs, d, st, tr, fuel) by {
        ListsOf(cs);
        MatchSplits(h, cs, d, st, tr);
        ListRuns(h, Front(cs), d, st, tr, fuel);
        var t := FirstMatch(h, Front(cs), d, st, tr).1;
        SelectNone(h, cs, t.st, t.tr, fuel);
      }
    } else if FirstMatch(h, Front(cs), d, st, tr).0.Some? {
      assert Selected(h, cs, d, st, tr, fuel) == CaseBlock(h, cs, d, st, tr, fuel) by {
        ListsOf(cs);
        MatchSplits(h, cs, d, st, tr);
        ListRuns(h, Front(cs), d, st, tr, fuel);
        MatchInside(h, Front(cs), d, st, tr);
        var (i, t) := FirstMatch(h, Front(cs), d, st, tr);
        RunSplits(h, cs, i.value, t.st, t.tr, fuel);
        var a := ExecCases(h, Front(cs), i, t.st, t.tr, fuel);
        DefaultRuns(h, FromDefault(cs), a.st, a.tr, fuel);
      }
    } else {
      FoundBehind(h, cs, d, st, tr, fuel);
    }
  }

  lemma FoundBehind(h: Host, cs: Cases, d: Val, st: Store, tr: Trace, fuel: nat)
    requires Defaults(cs) <= 1 && FromDefault(cs).Case?
    requires FirstMatch(h, Front(cs), d, st, tr).1.Value? && FirstMatch(h, Front(cs), d, st, tr).0.None?
    ensures Selected(h, cs, d, st, tr, fuel) == CaseBlock(h, cs, d, st, tr, fuel)
  {
    hide ExecAll; hide Eval; hide FirstMatch; hide Clauses; hide ExecCases; hide Front; hide FromDefault; hide Length;
    hide DefaultIndex; hide Default;
    ListsOf(cs);
    MatchSplits(h, cs, d, st, tr);
    ListRuns(h, Front(cs), d, st, tr, fuel);
    var tail := FromDefault(cs);
    var t := FirstMatch(h, Front(cs), d, st, tr).1;
    ListRuns(h, tail.rest, d, t.st, t.tr, fuel);
    var (j, u) := FirstMatch(h, tail.rest, d, t.st, t.tr);
    if u.Value? {
      if j.Some? {
        RunBehind(h, cs, j.value, u.st, u.tr, fuel);
      } else {
        RunSplits(h, cs, Length(Front(cs)), u.st, u.tr, fuel);
        RunsOut(h, Front(cs), u.st, u.tr, fuel);
        DefaultRuns(h, tail, u.st, u.tr, fuel);
      }
    }
  }

  lemma DefaultRuns(h: Host, tail: Cases, st: Store, tr: Trace, fuel: nat)
    requires tail.Case?
    ensures Default(h, tail, st, tr, fuel) == ExecCases(h, tail, Some(0), st, tr, fuel)
  {
    hide ExecAll;
    var r := ExecAll(h, tail.body, st, tr, fuel);
    if r.c.Normal? { FoundRuns(h, tail.rest, Undefined, r.st, r.tr, fuel); }
  }

  // Past the last clause there is nothing to run.
  lemma {:induction false} RunsOut(h: Host, cs: Cases, st: Store, tr: Trace, fuel: nat)
    ensures ExecCases(h, cs, Some(Length(cs)), st, tr, fuel) == SRes(Normal, st, tr)
    decreases cs
  {
    hide ExecAll;
    if cs.Case? { RunsOut(h, cs.rest, st, tr, fuel); }
  }
}
