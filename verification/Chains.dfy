/**
 What an optional chain means (section 13.3.9 of ECMA-262), stated without short
 circuits: a chain behaves like the plain chain without its question marks, all of it
 or exactly the part in front of the first optional link that meets a nullish value.
 */
module Chains {
  import opened Words
  import opened Machine
  import opened Source

  // The chain with every `?.` turned into a plain link.
  function Erase(links: Links): Links {
    match links
    case End => End
    case Member(_, key, rest) => Member(false, key, Erase(rest))
    case Invoke(_, args, rest) => Invoke(false, args, Erase(rest))
  }

  // The first k links.
  function Cut(links: Links, k: nat): Links {
    if k == 0 then End
    else
      match links
      case End => End
      case Member(o, key, rest) => Member(o, key, Cut(rest, k - 1))
      case Invoke(o, args, rest) => Invoke(o, args, Cut(rest, k - 1))
  }

  function IsOptional(links: Links): bool { !links.End? && links.optional }

  // The first optional link whose incoming value is nullish, found by evaluating
  // plain chains of growing length.
  ghost predicate StopsAt(h: Host, links: Links, cur: Val, recv: Option<Val>, st: Store, tr: Trace, k: nat)
  {
    var front := EvalLinks(h, Erase(Cut(links, k)), cur, recv, st, tr);
    && front.Value? && Nullish(front.v) && IsOptional(Drop(links, k))
    && forall j: nat :: j < k && IsOptional(Drop(links, j)) ==>
         var f := EvalLinks(h, Erase(Cut(links, j)), cur, recv, st, tr); f.Value? ==> !Nullish(f.v)
  }

  function Drop(links: Links, k: nat): Links {
    if k == 0 || links.End? then links else Drop(links.rest, k - 1)
  }

  // One plain link.
  function Hop(h: Host, links: Links, cur: Val, recv: Option<Val>, st: Store, tr: Trace): (ERes, Option<Val>)
    requires !links.End?
  {
    match links
    case Member(_, key, _) =>
      var k := EvalKey(h, key, st, tr);
      (if k.Thrown? then k else Ask(h, Request(GET_PROPERTY, [], [cur, k.v]), k.st, k.tr), Some(cur))
    case Invoke(_, args, _) =>
      var (vs, a) := EvalArgs(h, args, st, tr);
      (if a.Thrown? then a
       else Ask(h, Request(CALL, [|vs|], [cur, if recv.Some? then recv.value else Undefined] + vs), a.st, a.tr), None)
  }

  lemma HopUnfolds(h: Host, links: Links, cur: Val, recv: Option<Val>, st: Store, tr: Trace)
    requires !links.End?
    ensures EvalLinks(h, links, cur, recv, st, tr) ==
            if links.optional && Nullish(cur) then Value(Undefined, st, tr) else
            var (r, recv') := Hop(h, links, cur, recv, st, tr);
            if r.Thrown? then r else EvalLinks(h, links.rest, r.v, recv', r.st, r.tr)
  {
  }

  lemma CutUnfolds(h: Host, links: Links, k: nat, cur: Val, recv: Option<Val>, st: Store, tr: Trace)
    requires !links.End? && k > 0
    ensures EvalLinks(h, Erase(Cut(links, k)), cur, recv, st, tr) ==
            var (r, recv') := Hop(h, links, cur, recv, st, tr);
            if r.Thrown? then r else EvalLinks(h, Erase(Cut(links.rest, k - 1)), r.v, recv', r.st, r.tr)
  {
    HopUnfolds(h, Erase(Cut(links, k)), cur, recv, st, tr);
  }

  // If link k is the first one to meet a nullish value, the chain made exactly the
  // requests of the links in front of it and yields undefined; if there is no such
  // link, the chain is the plain chain.
  lemma {:induction false} ChainMeaning(h: Host, links: Links, cur: Val, recv: Option<Val>, st: Store, tr: Trace)
    ensures forall k: nat :: StopsAt(h, links, cur, recv, st, tr, k) ==>
              var front := EvalLinks(h, Erase(Cut(links, k)), cur, recv, st, tr);
              EvalLinks(h, links, cur, recv, st, tr) == Value(Undefined, front.st, front.tr)
    ensures (forall k: nat :: !StopsAt(h, links, cur, recv, st, tr, k)) ==>
              EvalLinks(h, links, cur, recv, st, tr) == EvalLinks(h, Erase(links), cur, recv, st, tr)
    decreases links
  {
    CutNone(h, links, cur, recv, st, tr);
    if links.End? {
      forall k: nat ensures !StopsAt(h, links, cur, recv, st, tr, k) { }
      return;
    }
    HopUnfolds(h, links, cur, recv, st, tr);
    assert EvalLinks(h, Erase(links), cur, recv, st, tr) == var (r, recv') := Hop(h, links, cur, recv, st, tr);
           if r.Thrown? then r else EvalLinks(h, Erase(links.rest), r.v, recv', r.st, r.tr) by {
      HopUnfolds(h, Erase(links), cur, recv, st, tr);
    }
    if links.optional && Nullish(cur) {
      assert StopsAt(h, links, cur, recv, st, tr, 0);
      forall k: nat | StopsAt(h, links, cur, recv, st, tr, k) ensures k == 0 { }
      return;
    }
    var (r, recv') := Hop(h, links, cur, recv, st, tr);
    if r.Value? { ChainMeaning(h, links.rest, r.v, recv', r.st, r.tr); }
    forall k: nat
      ensures StopsAt(h, links, cur, recv, st, tr, k) <==>
              k > 0 && r.Value? && StopsAt(h, links.rest, r.v, recv', r.st, r.tr, k - 1)
      ensures k > 0 ==> EvalLinks(h, Erase(Cut(links, k)), cur, recv, st, tr) ==
                        if r.Thrown? then r else EvalLinks(h, Erase(Cut(links.rest, k - 1)), r.v, recv', r.st, r.tr)
    {
      StopsLater(h, links, cur, recv, st, tr, k);
      if k > 0 { CutUnfolds(h, links, k, cur, recv, st, tr); }
    }
    if forall k: nat :: !StopsAt(h, links, cur, recv, st, tr, k) {
      if r.Value? {
        forall k: nat ensures !StopsAt(h, links.rest, r.v, recv', r.st, r.tr, k) {
          assert !StopsAt(h, links, cur, recv, st, tr, k + 1);
        }
      }
    }
  }

  lemma CutNone(h: Host, links: Links, cur: Val, recv: Option<Val>, st: Store, tr: Trace)
    ensures EvalLinks(h, Erase(Cut(links, 0)), cur, recv, st, tr) == Value(cur, st, tr)
  {
  }

  // Past a first link that does not stop the chain.
  lemma StopsLater(h: Host, links: Links, cur: Val, recv: Option<Val>, st: Store, tr: Trace, k: nat)
    requires !links.End? && !(links.optional && Nullish(cur))
    ensures var (r, recv') := Hop(h, links, cur, recv, st, tr);
            StopsAt(h, links, cur, recv, st, tr, k) <==>
              k > 0 && r.Value? && StopsAt(h, links.rest, r.v, recv', r.st, r.tr, k - 1)
  {
    hide EvalLinks; hide Hop;
    var (r, recv') := Hop(h, links, cur, recv, st, tr);
    CutNone(h, links, cur, recv, st, tr);
    forall j: nat | j > 0
      ensures EvalLinks(h, Erase(Cut(links, j)), cur, recv, st, tr) ==
              if r.Thrown? then r else EvalLinks(h, Erase(Cut(links.rest, j - 1)), r.v, recv', r.st, r.tr)
    {
      CutUnfolds(h, links, j, cur, recv, st, tr);
    }
    if k > 0 && r.Value? {
      if StopsAt(h, links, cur, recv, st, tr, k) {
        forall j: nat | j < k - 1 && IsOptional(Drop(links.rest, j))
          ensures var f := EvalLinks(h, Erase(Cut(links.rest, j)), r.v, recv', r.st, r.tr); f.Value? ==> !Nullish(f.v)
        {
          assert Drop(links, j + 1) == Drop(links.rest, j);
          var f := EvalLinks(h, Erase(Cut(links, j + 1)), cur, recv, st, tr);
        }
      }
      if StopsAt(h, links.rest, r.v, recv', r.st, r.tr, k - 1) {
        forall j: nat | j < k && IsOptional(Drop(links, j))
          ensures var f := EvalLinks(h, Erase(Cut(links, j)), cur, recv, st, tr); f.Value? ==> !Nullish(f.v)
        {
          if j > 0 { assert Drop(links, j) == Drop(links.rest, j - 1); }
        }
      }
    }
  }
}
