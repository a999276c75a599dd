/**
 Static environment depths (crates/v12-bccompiler/src/model.rs, unit.rs, class.rs).

 At run time environments form a linked chain: a closure captures the chain of its
 creation point, an activation pushes its own environment if the unit has one, and a
 class pushes a scope for the time its elements are defined.  The compiler never sees
 that chain; it counts: structural hops between units, the number of scopes live where
 a unit was created, and the number live at the access.  The theorem is that counting
 is exact.
 */
module EnvDepth {
  import opened Words

  const MAX_ENV_DEPTH: nat := 65535

  // ---- run-time environments --------------------------------------------

  datatype Tag = Own(unit: nat) | ScopeOf(sid: nat)

  datatype Env = Root | Env(tag: Tag, parent: Env)

  // The environment depth parent links up.
  function WalkUp(e: Env, depth: nat): Env {
    if depth == 0 || e.Root? then e else WalkUp(e.parent, depth - 1)
  }

  // ---- programs ---------------------------------------------------------

  // What matters of a unit: closures it creates, classes it evaluates, and accesses
  // to captured variables, class scopes and the class behind `super`.
  datatype Unit = Unit(id: nat, hasEnv: bool, isArrow: bool, usesSuper: bool, body: Evs)

  datatype Evs = Done | Then(head: Ev, tail: Evs)

  datatype Ev =
    | Create(u: Unit)
    | Class(sid: nat, needsEnv: bool, heritage: Evs, elements: Evs)
    | UseVar(home: nat)
    | UseScope(scope: nat)
    | UseSuper

  // ---- emitted code -----------------------------------------------------

  // An access carries the environment it is meant for, so that a run can be checked.
  datatype Op =
    | PushEnv(sid: nat)
    | PopEnv
    | Closure(unit: nat, hasEnv: bool, body: Ops)
    | Get(depth: nat, target: Tag)

  datatype Ops = NoOps | Op(head: Op, tail: Ops)

  function Append(a: Ops, b: Ops): Ops { if a.NoOps? then b else Op(a.head, Append(a.tail, b)) }

  // Every access lands on its target, in this activation and in every activation of
  // every closure it creates, whenever that is called.
  ghost predicate AllLand(ops: Ops, e: Env)
    decreases ops
  {
    if ops.NoOps? then true
    else
      match ops.head
      case PushEnv(sid) => AllLand(ops.tail, Env(ScopeOf(sid), e))
      case PopEnv => e.Env? && AllLand(ops.tail, e.parent)
      case Closure(u, hasEnv, body) => AllLand(body, if hasEnv then Env(Own(u), e) else e) && AllLand(ops.tail, e)
      case Get(d, t) => WalkUp(e, d).Env? && WalkUp(e, d).tag == t && AllLand(ops.tail, e)
  }

  // The environment after ops.
  function After(ops: Ops, e: Env): Env {
    if ops.NoOps? then e
    else
      match ops.head
      case PushEnv(sid) => After(ops.tail, Env(ScopeOf(sid), e))
      case PopEnv => After(ops.tail, if e.Root? then e else e.parent)
      case _ => After(ops.tail, e)
  }

  lemma {:induction false} LandAppend(a: Ops, b: Ops, e: Env)
    ensures AllLand(Append(a, b), e) <==> AllLand(a, e) && AllLand(b, After(a, e))
    ensures After(Append(a, b), e) == After(b, After(a, e))
    decreases a
  {
    if a.Op? {
      match a.head
      case PushEnv(sid) => LandAppend(a.tail, b, Env(ScopeOf(sid), e));
      case PopEnv => LandAppend(a.tail, b, if e.Root? then e else e.parent);
      case Closure(_, _, _) => LandAppend(a.tail, b, e);
      case Get(_, _) => LandAppend(a.tail, b, e);
    }
  }

  // ---- the compiler's tables --------------------------------------------

  datatype UnitPlan = UnitPlan(hasEnv: bool, isArrow: bool, usesSuper: bool, parent: Option<nat>, creationBias: nat)

  type Plans = map<nat, UnitPlan>

  // Parents come before their children, so parent walks end.
  ghost predicate Acyclic(plans: Plans) {
    forall u :: u in plans && plans[u].parent.Some? ==> plans[u].parent.value < u && plans[u].parent.value in plans
  }

  function Bit(b: bool): nat { if b then 1 else 0 }

  // Hops from u's innermost environment up to, excluding, that of `to`; none when
  // `to` is not an ancestor.
  function Hops(plans: Plans, u: nat, to: nat): Option<nat>
    requires u in plans && Acyclic(plans)
    decreases u
  {
    if u == to then Some(0)
    else if plans[u].parent.None? then None
    else
      var rest := Hops(plans, plans[u].parent.value, to);
      if rest.None? then None else Some(rest.value + Bit(plans[u].hasEnv) + plans[u].creationBias)
  }

  // Hops up to `to`, or up to the outermost unit.
  function HopsToward(plans: Plans, u: nat, to: nat): (h: nat)
    requires u in plans && Acyclic(plans)
    ensures Hops(plans, u, to).Some? ==> h == Hops(plans, u, to).value
    decreases u
  {
    if u == to then 0
    else
      Bit(plans[u].hasEnv) + plans[u].creationBias
      + if plans[u].parent.None? then 0 else HopsToward(plans, plans[u].parent.value, to)
  }

  // The structural depth; too deep a chain is a compile error, a unit that is not an
  // ancestor counts as depth zero.
  method EnvDepthBetween(plans: Plans, from: nat, to: nat) returns (depth: Option<nat>)
    requires from in plans && Acyclic(plans)
    ensures var h := Hops(plans, from, to);
            h.Some? ==> depth == if h.value <= MAX_ENV_DEPTH then h else None
    ensures Hops(plans, from, to).None? ==>
              depth == if HopsToward(plans, from, to) <= MAX_ENV_DEPTH then Some(0) else None
  {
    var acc: nat := 0;
    var cur := Some(from);
    while cur.Some?
      invariant acc <= MAX_ENV_DEPTH && (cur.Some? ==> cur.value in plans)
      invariant cur.None? ==> Hops(plans, from, to).None?
      invariant cur.Some? ==>
                  var rest := Hops(plans, cur.value, to);
                  Hops(plans, from, to) == if rest.None? then None else Some(acc + rest.value)
      invariant HopsToward(plans, from, to) == acc + if cur.None? then 0 else HopsToward(plans, cur.value, to)
      decreases if cur.None? then 0 else cur.value + 1
    {
      var u := cur.value;
      if u == to { return Some(acc); }
      var hops := Bit(plans[u].hasEnv) + plans[u].creationBias;
      if acc + hops > MAX_ENV_DEPTH { return None; }
      acc := acc + hops;
      cur := plans[u].parent;
    }
    return Some(0);
  }

  function Saturate(d: nat): nat { if d > MAX_ENV_DEPTH then MAX_ENV_DEPTH else d }

  // Hops to the environment the nearest method that uses `super` was created under.
  function SuperHops(plans: Plans, u: nat): nat
    requires u in plans && Acyclic(plans)
    decreases u
  {
    var own := Bit(plans[u].hasEnv);
    if (!plans[u].isArrow && plans[u].usesSuper) || plans[u].parent.None? then
      own + if !plans[u].isArrow && plans[u].usesSuper then 0 else plans[u].creationBias
    else own + plans[u].creationBias + SuperHops(plans, plans[u].parent.value)
  }

  method SuperEnvDepthBetween(plans: Plans, from: nat) returns (depth: nat)
    requires from in plans && Acyclic(plans)
    ensures depth == Saturate(SuperHops(plans, from))
  {
    depth := 0;
    var cur := Some(from);
    while cur.Some?
      invariant cur.Some? ==> cur.value in plans
      invariant Saturate(SuperHops(plans, from)) ==
                Saturate(depth + if cur.None? then 0 else SuperHops(plans, cur.value))
      invariant depth <= MAX_ENV_DEPTH
      decreases if cur.None? then 0 else cur.value + 1
    {
      var u := cur.value;
      if plans[u].hasEnv { depth := Saturate(depth + 1); }
      if !plans[u].isArrow && plans[u].usesSuper { break; }
      depth := Saturate(depth + plans[u].creationBias);
      cur := plans[u].parent;
    }
  }

  // ---- emission ---------------------------------------------------------

  // A class being compiled: the unit it is in, and the scopes live there, its own
  // included.
  datatype ClassScope = ClassScope(sid: nat, outerUnit: nat, biasLevel: nat)

  // Emission state: the plans with the creation biases filled in so far.
  datatype Emitted = Emitted(plans: Plans, ops: Ops)

  function Biased(depth: nat, bias: nat): nat { Saturate(depth + bias) }

  function FindScope(scopes: seq<ClassScope>, sid: nat): Option<ClassScope> {
    if scopes == [] then None
    else if scopes[|scopes| - 1].sid == sid then Some(scopes[|scopes| - 1])
    else FindScope(scopes[..|scopes| - 1], sid)
  }

  function VarDepth(plans: Plans, unit: nat, bias: nat, home: nat): nat
    requires unit in plans && Acyclic(plans)
  {
    var h := Hops(plans, unit, home);
    Biased(if h.None? then 0 else h.value, bias)
  }

  function ScopeDepth(plans: Plans, unit: nat, bias: nat, scopes: seq<ClassScope>, sid: nat): nat
    requires unit in plans && Acyclic(plans)
  {
    var s := FindScope(scopes, sid);
    if s.None? then 0 else
    var total := bias + HopsToward(plans, unit, s.value.outerUnit);
    if total < s.value.biasLevel then 0 else total - s.value.biasLevel
  }

  // The depth of a class scope; one that does not fit is a compile error.
  method ClassScopeDepth(plans: Plans, unit: nat, bias: nat, scope: ClassScope) returns (depth: Option<nat>)
    requires unit in plans && Acyclic(plans)
    ensures var total := bias + HopsToward(plans, unit, scope.outerUnit);
            var d := if total < scope.biasLevel then 0 else total - scope.biasLevel;
            depth == if d <= MAX_ENV_DEPTH then Some(d) else None
  {
    var acc := bias;
    var cur := unit;
    while cur != scope.outerUnit
      invariant cur in plans
                && bias + HopsToward(plans, unit, scope.outerUnit) == acc + HopsToward(plans, cur, scope.outerUnit)
      decreases cur
    {
      acc := acc + Bit(plans[cur].hasEnv) + plans[cur].creationBias;
      if plans[cur].parent.None? { break; }
      cur := plans[cur].parent.value;
    }
    var d := if acc < scope.biasLevel then 0 else acc - scope.biasLevel;
    return if d <= MAX_ENV_DEPTH then Some(d) else None;
  }

  // A unit is compiled at its creation point: the number of scopes live there is
  // recorded, the count restarts for the body and is restored afterwards.
  function EmitUnit(plans: Plans, u: Unit, parent: Option<nat>, bias: nat, scopes: seq<ClassScope>): (r: Emitted)
    requires Acyclic(plans) && (parent.Some? ==> parent.value in plans && parent.value < u.id) && Numbered(u)
    ensures Acyclic(r.plans) && plans.Keys <= r.plans.Keys
    decreases u, 1
  {
    var plans1 := plans[u.id := UnitPlan(u.hasEnv, u.isArrow, u.usesSuper, parent, bias)];
    EmitEvs(plans1, u.id, 0, scopes, u.body)
  }

  function EmitEvs(plans: Plans, unit: nat, bias: nat, scopes: seq<ClassScope>, evs: Evs): (r: Emitted)
    requires Acyclic(plans) && unit in plans && NumberedIn(unit, evs)
    ensures Acyclic(r.plans) && plans.Keys <= r.plans.Keys
    decreases evs, 0
  {
    match evs
    case Done => Emitted(plans, NoOps)
    case Then(ev, rest) =>
      var first := EmitEv(plans, unit, bias, scopes, ev);
      var more := EmitEvs(first.plans, unit, bias, scopes, rest);
      Emitted(more.plans, Append(first.ops, more.ops))
  }

  function EmitEv(plans: Plans, unit: nat, bias: nat, scopes: seq<ClassScope>, ev: Ev): (r: Emitted)
    requires Acyclic(plans) && unit in plans && NumberedEv(unit, ev)
    ensures Acyclic(r.plans) && plans.Keys <= r.plans.Keys
    decreases ev, 0
  {
    match ev
    case Create(u) =>
      var r := EmitUnit(plans, u, Some(unit), bias, scopes);
      Emitted(r.plans, Op(Closure(u.id, u.hasEnv, r.ops), NoOps))
    case Class(sid, needsEnv, heritage, elements) =>
      var bias1 := bias + Bit(needsEnv);
      var h := EmitEvs(plans, unit, bias1, scopes, heritage);
      var e := EmitEvs(h.plans, unit, bias1, scopes + [ClassScope(sid, unit, bias1)], elements);
      var body := Append(h.ops, e.ops);
      Emitted(e.plans, if needsEnv then Op(PushEnv(sid), Append(body, Op(PopEnv, NoOps))) else body)
    case UseVar(home) => Emitted(plans, Op(Get(VarDepth(plans, unit, bias, home), Own(home)), NoOps))
    case UseScope(sid) => Emitted(plans, Op(Get(ScopeDepth(plans, unit, bias, scopes, sid), ScopeOf(sid)), NoOps))
    case UseSuper => Emitted(plans,
                             Op(Get(Biased(Saturate(SuperHops(plans, unit)), bias),
                                    ScopeOf(SuperScope(plans, unit, scopes))), NoOps))
  }

  // The class whose element the nearest `super` user is: the innermost class scope
  // that was being compiled when that unit was.
  function SuperScope(plans: Plans, unit: nat, scopes: seq<ClassScope>): nat
    requires unit in plans && Acyclic(plans)
    decreases unit
  {
    if plans[unit].parent.None? then 0
    else if !plans[unit].isArrow && plans[unit].usesSuper then LastIn(scopes, plans[unit].parent.value)
    else SuperScope(plans, plans[unit].parent.value, scopes)
  }

  // The innermost class being compiled in unit.
  function LastIn(scopes: seq<ClassScope>, unit: nat): nat {
    if scopes == [] then 0
    else if scopes[|scopes| - 1].outerUnit == unit then scopes[|scopes| - 1].sid
    else LastIn(scopes[..|scopes| - 1], unit)
  }

  // Units are numbered after the units around them.
  ghost predicate Numbered(u: Unit)
    decreases u, 1
  {
    NumberedIn(u.id, u.body)
  }

  ghost predicate NumberedIn(unit: nat, evs: Evs)
    decreases evs, 0
  {
    evs.Then? ==> NumberedEv(unit, evs.head) && NumberedIn(unit, evs.tail)
  }

  ghost predicate NumberedEv(unit: nat, ev: Ev)
    decreases ev, 0
  {
    match ev
    case Create(u) => unit < u.id && Numbered(u)
    case Class(_, _, h, e) => NumberedIn(unit, h) && NumberedIn(unit, e)
    case _ => true
  }

  // ---- what is reached ----------------------------------------------------

  // One thing code does with environments; `around` are the closures it is in, outermost
  // first.
  datatype Deed =
    | Makes(around: seq<nat>, unit: nat, hasEnv: bool)
    | Opens(around: seq<nat>, sid: nat)
    | Leaves(around: seq<nat>)
    | Reaches(around: seq<nat>, target: Tag)

  function Deeds(ops: Ops, around: seq<nat>): seq<Deed>
    decreases ops
  {
    if ops.NoOps? then []
    else
      match ops.head
      case PushEnv(sid) => [Opens(around, sid)] + Deeds(ops.tail, around)
      case PopEnv => [Leaves(around)] + Deeds(ops.tail, around)
      case Closure(u, hasEnv, body) =>
        [Makes(around, u, hasEnv)] + Deeds(body, around + [u]) + Deeds(ops.tail, around)
      case Get(_, t) => [Reaches(around, t)] + Deeds(ops.tail, around)
  }

  // What a program asks for, in its own order.  `cls` is the class whose elements are at
  // hand in this unit, `sup` the class the nearest `super` user is an element of.
  function Asked(evs: Evs, around: seq<nat>, cls: nat, sup: nat): seq<Deed>
    decreases evs, 0
  {
    if evs.Done? then [] else AskedEv(evs.head, around, cls, sup) + Asked(evs.tail, around, cls, sup)
  }

  function AskedEv(ev: Ev, around: seq<nat>, cls: nat, sup: nat): seq<Deed>
    decreases ev, 0
  {
    match ev
    case Create(u) =>
      [Makes(around, u.id, u.hasEnv)]
      + Asked(u.body, around + [u.id], 0, if !u.isArrow && u.usesSuper then cls else sup)
    case Class(sid, needsEnv, heritage, elements) =>
      var body := Asked(heritage, around, cls, sup) + Asked(elements, around, sid, sup);
      if needsEnv then [Opens(around, sid)] + body + [Leaves(around)] else body
    case UseVar(home) => [Reaches(around, Own(home))]
    case UseScope(sid) => [Reaches(around, ScopeOf(sid))]
    case UseSuper => [Reaches(around, ScopeOf(sup))]
  }

  lemma {:induction false} DeedsAppend(a: Ops, b: Ops, around: seq<nat>)
    ensures Deeds(Append(a, b), around) == Deeds(a, around) + Deeds(b, around)
    decreases a
  {
    if a.Op? { DeedsAppend(a.tail, b, around); }
  }

  // The classes of the compiler's tables are those of the program.
  ghost predicate Owners(plans: Plans, unit: nat, scopes: seq<ClassScope>, cls: nat, sup: nat)
    requires Acyclic(plans) && unit in plans
  {
    && LastIn(scopes, unit) == cls && SuperScope(plans, unit, scopes) == sup
    && forall i :: 0 <= i < |scopes| ==> scopes[i].outerUnit <= unit
  }

  // Later plans and classes of later units do not matter.
  lemma {:induction false} SuperKept(plans: Plans, plans': Plans, unit: nat, scopes: seq<ClassScope>, s: ClassScope)
    requires Acyclic(plans) && Acyclic(plans') && unit in plans && unit in plans' && s.outerUnit >= unit
    requires forall v :: v in plans && v <= unit ==> v in plans' && plans'[v] == plans[v]
    ensures SuperScope(plans', unit, scopes) == SuperScope(plans, unit, scopes) == SuperScope(plans, unit, scopes + [s])
    decreases unit
  {
    if plans[unit].parent.Some? {
      assert (scopes + [s])[..|scopes|] == scopes;
      SuperKept(plans, plans', plans[unit].parent.value, scopes, s);
    }
  }

  // A unit has no class of its own yet.
  lemma {:induction false} NoClass(scopes: seq<ClassScope>, unit: nat)
    requires forall i :: 0 <= i < |scopes| ==> scopes[i].outerUnit < unit
    ensures LastIn(scopes, unit) == 0
    decreases |scopes|
  {
    if scopes != [] { NoClass(scopes[..|scopes| - 1], unit); }
  }

  lemma {:induction false} EvsAsked(plans: Plans, unit: nat, bias: nat, scopes: seq<ClassScope>, evs: Evs,
                                    around: seq<nat>, cls: nat, sup: nat)
    requires Acyclic(plans) && unit in plans && NumberedIn(unit, evs) && Owners(plans, unit, scopes, cls, sup)
    ensures Deeds(EmitEvs(plans, unit, bias, scopes, evs).ops, around) == Asked(evs, around, cls, sup)
    decreases evs, 0
  {
    hide SuperScope; hide LastIn; hide EmitEv; hide AskedEv; hide Acyclic;
    if evs.Then? {
      EvAsked(plans, unit, bias, scopes, evs.head, around, cls, sup);
      var first := EmitEv(plans, unit, bias, scopes, evs.head);
      PlansKeptEv(plans, unit, bias, scopes, evs.head);
      SuperKept(plans, first.plans, unit, scopes, ClassScope(0, unit, 0));
      EvsAsked(first.plans, unit, bias, scopes, evs.tail, around, cls, sup);
      DeedsAppend(first.ops, EmitEvs(first.plans, unit, bias, scopes, evs.tail).ops, around);
    }
  }

  lemma {:induction false} EvAsked(plans: Plans, unit: nat, bias: nat, scopes: seq<ClassScope>, ev: Ev,
                                   around: seq<nat>, cls: nat, sup: nat)
    requires Acyclic(plans) && unit in plans && NumberedEv(unit, ev) && Owners(plans, unit, scopes, cls, sup)
    ensures Deeds(EmitEv(plans, unit, bias, scopes, ev).ops, around) == AskedEv(ev, around, cls, sup)
    decreases ev, 1
  {
    hide EmitEvs; hide Asked; hide VarDepth; hide ScopeDepth; hide SuperHops; hide Acyclic;
    match ev
    case Create(u) =>
      var plans1 := plans[u.id := UnitPlan(u.hasEnv, u.isArrow, u.usesSuper, Some(unit), bias)];
      AcyclicPushed(plans, u, unit, bias);
      SuperKept(plans, plans1, unit, scopes, ClassScope(0, unit, 0));
      NoClass(scopes, u.id);
      EvsAsked(plans1, u.id, 0, scopes, u.body, around + [u.id], 0, if !u.isArrow && u.usesSuper then cls else sup);
    case Class(_, _, _, _) => ClassAsked(plans, unit, bias, scopes, ev, around, cls, sup);
    case _ =>
  }

  lemma {:induction false} ClassAsked(plans: Plans, unit: nat, bias: nat, scopes: seq<ClassScope>, ev: Ev,
                                      around: seq<nat>, cls: nat, sup: nat)
    requires Acyclic(plans) && unit in plans && ev.Class? && NumberedEv(unit, ev)
             && Owners(plans, unit, scopes, cls, sup)
    ensures Deeds(EmitEv(plans, unit, bias, scopes, ev).ops, around) == AskedEv(ev, around, cls, sup)
    decreases ev, 0
  {
    hide EmitEvs; hide Asked; hide Acyclic; hide SuperScope; hide EmitEv;
    ClassEmits(plans, unit, bias, scopes, ev);
    var bias1 := bias + Bit(ev.needsEnv);
    var scope := ClassScope(ev.sid, unit, bias1);
    EvsAsked(plans, unit, bias1, scopes, ev.heritage, around, cls, sup);
    var h := EmitEvs(plans, unit, bias1, scopes, ev.heritage);
    PlansKept(plans, unit, bias1, scopes, ev.heritage);
    SuperKept(plans, h.plans, unit, scopes, scope);
    SuperKept(h.plans, h.plans, unit, scopes, scope);
    EvsAsked(h.plans, unit, bias1, scopes + [scope], ev.elements, around, ev.sid, sup);
    var e := EmitEvs(h.plans, unit, bias1, scopes + [scope], ev.elements);
    DeedsAppend(h.ops, e.ops, around);
    DeedsAppend(Append(h.ops, e.ops), Op(PopEnv, NoOps), around);
  }

  // Emission drops nothing and adds nothing: every access, closure and scope of the
  // program, in order and inside the closures it is in.
  lemma AccessesExact(u: Unit)
    requires Numbered(u)
    ensures Deeds(EmitUnit(map[], u, None, 0, []).ops, []) == Asked(u.body, [], 0, 0)
  {
    EvsAsked(map[u.id := UnitPlan(u.hasEnv, u.isArrow, u.usesSuper, None, 0)], u.id, 0, [], u.body, [], 0, 0);
  }

  // ---- chains that fit ------------------------------------------------------

  // No chain of environments in a program is higher than the limit; `height` is that of
  // the chain here.
  predicate Shallow(evs: Evs, height: nat)
    decreases evs, 0
  {
    height <= MAX_ENV_DEPTH && (evs.Then? ==> ShallowEv(evs.head, height) && Shallow(evs.tail, height))
  }

  predicate ShallowEv(ev: Ev, height: nat)
    decreases ev, 0
  {
    match ev
    case Create(u) => Shallow(u.body, height + Bit(u.hasEnv))
    case Class(_, needsEnv, heritage, elements) =>
      Shallow(heritage, height + Bit(needsEnv)) && Shallow(elements, height + Bit(needsEnv))
    case _ => true
  }

  // The environments of u and of everything around it.
  function Total(plans: Plans, u: nat): nat
    requires u in plans && Acyclic(plans)
    decreases u
  {
    Bit(plans[u].hasEnv) + plans[u].creationBias
    + if plans[u].parent.None? then 0 else Total(plans, plans[u].parent.value)
  }

  lemma {:induction false} TotalKept(plans: Plans, plans': Plans, unit: nat)
    requires Acyclic(plans) && Acyclic(plans') && unit in plans
    requires forall v :: v in plans && v <= unit ==> v in plans' && plans'[v] == plans[v]
    ensures Total(plans', unit) == Total(plans, unit)
    decreases unit
  {
    if plans[unit].parent.Some? { TotalKept(plans, plans', plans[unit].parent.value); }
  }

  lemma {:induction false} HopsWithin(plans: Plans, u: nat, to: nat)
    requires Acyclic(plans) && u in plans
    ensures HopsToward(plans, u, to) <= Total(plans, u)
    decreases u
  {
    if u != to && plans[u].parent.Some? { HopsWithin(plans, plans[u].parent.value, to); }
  }

  // ---- lexical contexts -------------------------------------------------

  // One enclosing unit and the class scopes pushed in it, innermost last.
  datatype Frame = Frame(unit: nat, hasEnv: bool, isArrow: bool, usesSuper: bool, live: seq<nat>)

  // The enclosing units, innermost last.
  type Lex = seq<Frame>

  function PushAll(live: seq<nat>, e: Env): Env {
    if live == [] then e else Env(ScopeOf(live[|live| - 1]), PushAll(live[..|live| - 1], e))
  }

  function Entered(f: Frame, e: Env): Env { if f.hasEnv then Env(Own(f.unit), e) else e }

  // The run-time chain at a point with this context.
  function ChainOf(lex: Lex): Env {
    if lex == [] then Root
    else
      var f := lex[|lex| - 1];
      PushAll(f.live, Entered(f, ChainOf(lex[..|lex| - 1])))
  }

  // The compiler's tables agree with the context.
  ghost predicate Tracks(plans: Plans, lex: Lex) {
    && Acyclic(plans)
    && (forall i :: 0 <= i < |lex| ==> lex[i].unit in plans)
    && (forall i: nat :: i < |lex| ==> FrameOk(plans, lex, i))
    && (forall i, j :: 0 <= i < j < |lex| ==> lex[i].unit < lex[j].unit)
  }

  ghost predicate FrameOk(plans: Plans, lex: Lex, i: nat)
    requires i < |lex|
  {
    && lex[i].unit in plans
    && var p := plans[lex[i].unit];
    && p.hasEnv == lex[i].hasEnv && p.isArrow == lex[i].isArrow && p.usesSuper == lex[i].usesSuper
    && p.parent == (if i == 0 then None else Some(lex[i - 1].unit))
    && p.creationBias == (if i == 0 then 0 else |lex[i - 1].live|)
  }

  // Frame j of the context is where s is being compiled, and its scope was pushed there.
  ghost predicate Pushed(lex: Lex, s: ClassScope, j: nat) {
    j < |lex| && lex[j].unit == s.outerUnit && 1 <= s.biasLevel <= |lex[j].live|
    && lex[j].live[s.biasLevel - 1] == s.sid
  }

  // Frame j is the nearest `super` user, created in a class with a scope.
  ghost predicate SuperOwner(lex: Lex, scopes: seq<ClassScope>, j: nat) {
    && 1 <= j < |lex| && !lex[j].isArrow && lex[j].usesSuper
    && (forall i :: j < i < |lex| ==> lex[i].isArrow || !lex[i].usesSuper)
    && lex[j - 1].live != [] && lex[j - 1].live[|lex[j - 1].live| - 1] == LastIn(scopes, lex[j - 1].unit)
  }

  function Height(e: Env): nat { if e.Root? then 0 else 1 + Height(e.parent) }

  // Accesses name environments that are there, and no chain is too long to count.
  ghost predicate Scoped(lex: Lex, scopes: seq<ClassScope>, evs: Evs)
    decreases evs, 0
  {
    evs.Then? ==> ScopedEv(lex, scopes, evs.head) && Scoped(lex, scopes, evs.tail)
  }

  ghost predicate ScopedEv(lex: Lex, scopes: seq<ClassScope>, ev: Ev)
    decreases ev, 0
  {
    && lex != []
    && var f := lex[|lex| - 1];
    match ev
    case Create(u) => Scoped(lex + [Frame(u.id, u.hasEnv, u.isArrow, u.usesSuper, [])], scopes, u.body)
    case Class(sid, needsEnv, heritage, elements) =>
      var inside := lex[|lex| - 1 := f.(live := if needsEnv then f.live + [sid] else f.live)];
      && Scoped(inside, scopes, heritage)
      && Scoped(inside, scopes + [ClassScope(sid, f.unit, |f.live| + Bit(needsEnv))], elements)
    case UseVar(home) =>
      Height(ChainOf(lex)) <= MAX_ENV_DEPTH && exists j :: 0 <= j < |lex| && lex[j].unit == home && lex[j].hasEnv
    case UseScope(sid) => FindScope(scopes, sid).Some? && exists j: nat :: Pushed(lex, FindScope(scopes, sid).value, j)
    case UseSuper => Height(ChainOf(lex)) <= MAX_ENV_DEPTH && exists j: nat :: SuperOwner(lex, scopes, j)
  }

  // ---- counting is walking ----------------------------------------------

  lemma {:induction false} WalkScopes(live: seq<nat>, e: Env, d: nat)
    ensures WalkUp(PushAll(live, e), |live| + d) == WalkUp(e, d)
    decreases |live|
  {
    if live != [] { WalkScopes(live[..|live| - 1], e, d); }
  }

  lemma WalkNone(e: Env)
    ensures WalkUp(e, 0) == e
  {
  }

  // The scope pushed level-th is |live| - level links up.
  lemma {:induction false} WalkToScope(live: seq<nat>, e: Env, level: nat)
    requires 1 <= level <= |live|
    ensures var w := WalkUp(PushAll(live, e), |live| - level); w.Env? && w.tag == ScopeOf(live[level - 1])
    decreases |live|
  {
    if level < |live| { WalkToScope(live[..|live| - 1], e, level); }
  }

  // One unit down: scopes, own environment, then the chain of the creation point.
  lemma WalkUnit(lex: Lex, d: nat)
    requires lex != []
    ensures var f := lex[|lex| - 1];
            WalkUp(ChainOf(lex), |f.live| + Bit(f.hasEnv) + d) == WalkUp(ChainOf(lex[..|lex| - 1]), d)
  {
    var f := lex[|lex| - 1];
    WalkScopes(f.live, Entered(f, ChainOf(lex[..|lex| - 1])), Bit(f.hasEnv) + d);
  }

  lemma TracksInit(plans: Plans, lex: Lex)
    requires Tracks(plans, lex) && lex != []
    ensures Tracks(plans, lex[..|lex| - 1])
  {
    var init := lex[..|lex| - 1];
    forall i: nat | i < |init| ensures FrameOk(plans, init, i) { assert FrameOk(plans, lex, i); }
  }

  // The plan of the innermost unit.
  lemma LastPlan(plans: Plans, lex: Lex)
    requires Tracks(plans, lex) && lex != []
    ensures var n := |lex| - 1;
            && Acyclic(plans) && lex[n].unit in plans
            && var p := plans[lex[n].unit];
            && p.hasEnv == lex[n].hasEnv && p.isArrow == lex[n].isArrow && p.usesSuper == lex[n].usesSuper
            && (n == 0 ==> p.parent == None)
            && (n > 0 ==>
                lex[n - 1].unit in plans && p.parent == Some(lex[n - 1].unit) && p.creationBias == |lex[n - 1].live|)
            && forall j :: 0 <= j < n ==> lex[j].unit != lex[n].unit
  {
    assert FrameOk(plans, lex, |lex| - 1);
    if |lex| > 1 { assert FrameOk(plans, lex, |lex| - 2); }
  }

  lemma ChainLast(lex: Lex)
    requires lex != []
    ensures var n := |lex| - 1; ChainOf(lex) == PushAll(lex[n].live, Entered(lex[n], ChainOf(lex[..n])))
  {
  }

  // Structural hops lead from the access to the home unit's own environment.
  lemma {:induction false} HopsWalk(plans: Plans, lex: Lex, j: nat)
    requires Tracks(plans, lex) && j < |lex|
    ensures var f := lex[|lex| - 1];
            var h := Hops(plans, f.unit, lex[j].unit);
            h.Some? && WalkUp(ChainOf(lex), |f.live| + h.value) == Entered(lex[j], ChainOf(lex[..j]))
    decreases |lex|
  {
    hide Tracks; hide ChainOf; hide WalkUp;
    LastPlan(plans, lex); ChainLast(lex);
    var n := |lex| - 1;
    var f := lex[n];
    if j == n {
      WalkScopes(f.live, Entered(f, ChainOf(lex[..n])), 0);
      WalkNone(Entered(f, ChainOf(lex[..n])));
    } else {
      TracksInit(plans, lex);
      HopsWalk(plans, lex[..n], j);
      assert lex[..n][..j] == lex[..j] && lex[..n][n - 1] == lex[n - 1];
      WalkUnit(lex, |lex[n - 1].live| + Hops(plans, lex[n - 1].unit, lex[j].unit).value);
    }
  }

  // Hops past the outer unit, less the scopes pushed since, lead to the class scope;
  // the subtraction never falls below zero.
  lemma {:induction false} ScopeWalk(plans: Plans, lex: Lex, j: nat, level: nat)
    requires Tracks(plans, lex) && j < |lex| && 1 <= level <= |lex[j].live|
    ensures var f := lex[|lex| - 1];
            var h := Hops(plans, f.unit, lex[j].unit);
            && h.Some? && level <= |f.live| + h.value
            && var w := WalkUp(ChainOf(lex), |f.live| + h.value - level);
            && w.Env? && w.tag == ScopeOf(lex[j].live[level - 1])
    decreases |lex|
  {
    hide Tracks; hide ChainOf; hide WalkUp;
    LastPlan(plans, lex); ChainLast(lex);
    var n := |lex| - 1;
    var f := lex[n];
    if j == n {
      WalkToScope(f.live, Entered(f, ChainOf(lex[..n])), level);
    } else {
      TracksInit(plans, lex);
      ScopeWalk(plans, lex[..n], j, level);
      assert lex[..n][n - 1] == lex[n - 1];
      WalkUnit(lex, |lex[n - 1].live| + Hops(plans, lex[n - 1].unit, lex[j].unit).value - level);
    }
  }

  // The walk for `super` leads to the chain the owner was created under.
  lemma {:induction false} SuperWalk(plans: Plans, lex: Lex, scopes: seq<ClassScope>, j: nat)
    requires Tracks(plans, lex) && 1 <= j < |lex| && !lex[j].isArrow && lex[j].usesSuper
    requires forall i :: j < i < |lex| ==> lex[i].isArrow || !lex[i].usesSuper
    ensures var f := lex[|lex| - 1];
            WalkUp(ChainOf(lex), |f.live| + SuperHops(plans, f.unit)) == ChainOf(lex[..j])
    ensures SuperScope(plans, lex[|lex| - 1].unit, scopes) == LastIn(scopes, lex[j - 1].unit)
    decreases |lex|
  {
    hide Tracks; hide ChainOf; hide WalkUp;
    LastPlan(plans, lex); ChainLast(lex);
    var n := |lex| - 1;
    if j == n {
      WalkUnit(lex, 0);
      WalkNone(ChainOf(lex[..n]));
    } else {
      TracksInit(plans, lex);
      SuperWalk(plans, lex[..n], scopes, j);
      assert lex[..n][..j] == lex[..j] && lex[..n][n - 1] == lex[n - 1];
      WalkUnit(lex, |lex[n - 1].live| + SuperHops(plans, lex[n - 1].unit));
    }
  }

  // A walk that ends at an environment is shorter than the chain.
  lemma {:induction false} WalkHeight(e: Env, d: nat)
    requires WalkUp(e, d).Env?
    ensures d < Height(e)
    decreases d
  {
    if d > 0 { WalkHeight(e.parent, d - 1); }
  }

  // ---- emission keeps what it relies on -----------------------------------

  // Compiling inside a unit touches only plans of later units.
  lemma {:induction false} PlansKept(plans: Plans, unit: nat, bias: nat, scopes: seq<ClassScope>, evs: Evs)
    requires Acyclic(plans) && unit in plans && NumberedIn(unit, evs)
    ensures forall v :: v in plans && v <= unit ==> EmitEvs(plans, unit, bias, scopes, evs).plans[v] == plans[v]
    decreases evs, 0
  {
    if evs.Then? {
      PlansKeptEv(plans, unit, bias, scopes, evs.head);
      PlansKept(EmitEv(plans, unit, bias, scopes, evs.head).plans, unit, bias, scopes, evs.tail);
    }
  }

  lemma {:induction false} PlansKeptEv(plans: Plans, unit: nat, bias: nat, scopes: seq<ClassScope>, ev: Ev)
    requires Acyclic(plans) && unit in plans && NumberedEv(unit, ev)
    ensures forall v :: v in plans && v <= unit ==> EmitEv(plans, unit, bias, scopes, ev).plans[v] == plans[v]
    decreases ev, 0
  {
    hide EmitEvs; hide VarDepth; hide ScopeDepth; hide SuperHops; hide SuperScope; hide Acyclic; hide Append;
    match ev
    case Create(u) =>
      var plans1 := plans[u.id := UnitPlan(u.hasEnv, u.isArrow, u.usesSuper, Some(unit), bias)];
      AcyclicPushed(plans, u, unit, bias);
      PlansKept(plans1, u.id, 0, scopes, u.body);
    case Class(sid, needsEnv, heritage, elements) =>
      var bias1 := bias + Bit(needsEnv);
      PlansKept(plans, unit, bias1, scopes, heritage);
      PlansKept(EmitEvs(plans, unit, bias1, scopes, heritage).plans, unit, bias1,
                scopes + [ClassScope(sid, unit, bias1)], elements);
    case _ =>
  }

  lemma AcyclicPushed(plans: Plans, u: Unit, unit: nat, bias: nat)
    requires Acyclic(plans) && unit in plans && unit < u.id
    ensures Acyclic(plans[u.id := UnitPlan(u.hasEnv, u.isArrow, u.usesSuper, Some(unit), bias)])
  {
  }

  lemma TracksKept(plans: Plans, plans': Plans, lex: Lex)
    requires Tracks(plans, lex) && lex != [] && Acyclic(plans') && plans.Keys <= plans'.Keys
    requires forall v :: v in plans && v <= lex[|lex| - 1].unit ==> plans'[v] == plans[v]
    ensures Tracks(plans', lex)
  {
    forall i: nat | i < |lex| ensures FrameOk(plans', lex, i) {
      if i < |lex| - 1 { assert lex[i].unit < lex[|lex| - 1].unit; }
      assert FrameOk(plans, lex, i);
    }
  }

  // ---- the theorem --------------------------------------------------------

  lemma {:induction false} EvsLand(plans: Plans, lex: Lex, scopes: seq<ClassScope>, evs: Evs)
    requires Tracks(plans, lex) && lex != [] && NumberedIn(lex[|lex| - 1].unit, evs) && Scoped(lex, scopes, evs)
    ensures var f := lex[|lex| - 1];
            var r := EmitEvs(plans, f.unit, |f.live|, scopes, evs);
            Tracks(r.plans, lex) && AllLand(r.ops, ChainOf(lex)) && After(r.ops, ChainOf(lex)) == ChainOf(lex)
    decreases evs, 0
  {
    TracksAcyclic(plans, lex);
    var f := lex[|lex| - 1];
    var r := EmitEvs(plans, f.unit, |f.live|, scopes, evs);
    if evs.Done? {
    } else {
      EvLands(plans, lex, scopes, evs.head);
      var first := EmitEv(plans, f.unit, |f.live|, scopes, evs.head);
      EvsLand(first.plans, lex, scopes, evs.tail);
      LandAppend(first.ops, EmitEvs(first.plans, f.unit, |f.live|, scopes, evs.tail).ops, ChainOf(lex));
    }
  }

  lemma TracksAcyclic(plans: Plans, lex: Lex)
    requires Tracks(plans, lex) && lex != []
    ensures Acyclic(plans) && lex[|lex| - 1].unit in plans
  {
    assert FrameOk(plans, lex, |lex| - 1);
  }

  lemma {:induction false} EvLands(plans: Plans, lex: Lex, scopes: seq<ClassScope>, ev: Ev)
    requires Tracks(plans, lex) && lex != [] && NumberedEv(lex[|lex| - 1].unit, ev) && ScopedEv(lex, scopes, ev)
    ensures var f := lex[|lex| - 1];
            f.unit in plans && Acyclic(plans) &&
            var r := EmitEv(plans, f.unit, |f.live|, scopes, ev);
            Tracks(r.plans, lex) && AllLand(r.ops, ChainOf(lex)) && After(r.ops, ChainOf(lex)) == ChainOf(lex)
    decreases ev, 1
  {
    hide Tracks; hide WalkUp; hide ChainOf; hide VarDepth; hide ScopeDepth; hide SuperHops; hide SuperScope;
    hide EmitUnit; hide EmitEvs;
    TracksAcyclic(plans, lex);
    var f := lex[|lex| - 1];
    PlansKeptEv(plans, f.unit, |f.live|, scopes, ev);
    var r := EmitEv(plans, f.unit, |f.live|, scopes, ev);
    TracksKept(plans, r.plans, lex);
    match ev
    case Create(u) => CreateLands(plans, lex, scopes, u);
    case Class(_, _, _, _) => ClassLands(plans, lex, scopes, ev);
    case UseVar(home) => VarLands(plans, lex, scopes, home);
    case UseScope(sid) => ScopeLands(plans, lex, scopes, sid);
    case UseSuper => SuperLands(plans, lex, scopes);
  }

  lemma VarLands(plans: Plans, lex: Lex, scopes: seq<ClassScope>, home: nat)
    requires Tracks(plans, lex) && lex != [] && ScopedEv(lex, scopes, UseVar(home))
    ensures var f := lex[|lex| - 1];
            && f.unit in plans && Acyclic(plans)
            && var w := WalkUp(ChainOf(lex), VarDepth(plans, f.unit, |f.live|, home));
            && w.Env? && w.tag == Own(home)
  {
    hide Tracks; hide ChainOf; hide WalkUp; hide Hops;
    TracksAcyclic(plans, lex);
    var f := lex[|lex| - 1];
    var j :| 0 <= j < |lex| && lex[j].unit == home && lex[j].hasEnv;
    HopsWalk(plans, lex, j);
    WalkHeight(ChainOf(lex), |f.live| + Hops(plans, f.unit, home).value);
  }

  lemma ScopeLands(plans: Plans, lex: Lex, scopes: seq<ClassScope>, sid: nat)
    requires Tracks(plans, lex) && lex != [] && ScopedEv(lex, scopes, UseScope(sid))
    ensures var f := lex[|lex| - 1];
            && f.unit in plans && Acyclic(plans)
            && var w := WalkUp(ChainOf(lex), ScopeDepth(plans, f.unit, |f.live|, scopes, sid));
            && w.Env? && w.tag == ScopeOf(sid)
  {
    hide Tracks; hide ChainOf; hide WalkUp; hide Hops; hide FindScope;
    TracksAcyclic(plans, lex);
    var s := FindScope(scopes, sid).value;
    var j: nat :| Pushed(lex, s, j);
    FoundSid(scopes, sid);
    ScopeWalk(plans, lex, j, s.biasLevel);
  }

  lemma SuperLands(plans: Plans, lex: Lex, scopes: seq<ClassScope>)
    requires Tracks(plans, lex) && lex != [] && ScopedEv(lex, scopes, UseSuper)
    ensures var f := lex[|lex| - 1];
            && f.unit in plans && Acyclic(plans)
            && var w := WalkUp(ChainOf(lex), Biased(Saturate(SuperHops(plans, f.unit)), |f.live|));
            && w.Env? && w.tag == ScopeOf(SuperScope(plans, f.unit, scopes))
  {
    TracksAcyclic(plans, lex);
    var f := lex[|lex| - 1];
    var j: nat :| SuperOwner(lex, scopes, j);
    SuperWalk(plans, lex, scopes, j);
    assert var c := ChainOf(lex[..j]); c.Env? && c.tag == ScopeOf(lex[j - 1].live[|lex[j - 1].live| - 1]) by {
      assert lex[..j][j - 1] == lex[j - 1];
    }
    WalkHeight(ChainOf(lex), |f.live| + SuperHops(plans, f.unit));
  }

  lemma FoundSid(scopes: seq<ClassScope>, sid: nat)
    ensures FindScope(scopes, sid).Some? ==> FindScope(scopes, sid).value.sid == sid
  {
  }

  lemma TracksPushed(plans: Plans, lex: Lex, u: Unit)
    requires Tracks(plans, lex) && lex != [] && lex[|lex| - 1].unit < u.id
    ensures var f := lex[|lex| - 1];
            Tracks(plans[u.id := UnitPlan(u.hasEnv, u.isArrow, u.usesSuper, Some(f.unit), |f.live|)],
                   lex + [Frame(u.id, u.hasEnv, u.isArrow, u.usesSuper, [])])
  {
    var f := lex[|lex| - 1];
    var lex1 := lex + [Frame(u.id, u.hasEnv, u.isArrow, u.usesSuper, [])];
    var plans1 := plans[u.id := UnitPlan(u.hasEnv, u.isArrow, u.usesSuper, Some(f.unit), |f.live|)];
    forall i: nat | i < |lex| ensures lex1[i] == lex[i] && lex[i].unit < u.id {
      if i < |lex| - 1 { assert lex[i].unit < f.unit; }
    }
    assert FrameOk(plans, lex, |lex| - 1);
    forall i: nat | i < |lex1| ensures FrameOk(plans1, lex1, i) {
      if i < |lex| { assert FrameOk(plans, lex, i); }
    }
  }

  // A created unit: its closure captures the chain here, whenever it is called.
  lemma {:induction false} CreateLands(plans: Plans, lex: Lex, scopes: seq<ClassScope>, u: Unit)
    requires Tracks(plans, lex) && lex != [] && NumberedEv(lex[|lex| - 1].unit, Create(u))
             && ScopedEv(lex, scopes, Create(u))
    ensures var f := lex[|lex| - 1];
            f.unit in plans && Acyclic(plans) &&
            var r := EmitEv(plans, f.unit, |f.live|, scopes, Create(u));
            AllLand(r.ops, ChainOf(lex)) && After(r.ops, ChainOf(lex)) == ChainOf(lex)
    decreases u, 2
  {
    hide Tracks; hide EmitEvs;
    TracksAcyclic(plans, lex);
    var f := lex[|lex| - 1];
    var g := Frame(u.id, u.hasEnv, u.isArrow, u.usesSuper, []);
    var lex1 := lex + [g];
    var plans1 := plans[u.id := UnitPlan(u.hasEnv, u.isArrow, u.usesSuper, Some(f.unit), |f.live|)];
    TracksPushed(plans, lex, u);
    EvsLand(plans1, lex1, scopes, u.body);
    assert lex1[..|lex|] == lex;
    assert ChainOf(lex1) == Entered(g, ChainOf(lex));
  }

  lemma {:induction false} ClassLands(plans: Plans, lex: Lex, scopes: seq<ClassScope>, ev: Ev)
    requires Tracks(plans, lex) && lex != [] && ev.Class? && NumberedEv(lex[|lex| - 1].unit, ev)
             && ScopedEv(lex, scopes, ev)
    ensures var f := lex[|lex| - 1];
            f.unit in plans && Acyclic(plans) &&
            var r := EmitEv(plans, f.unit, |f.live|, scopes, ev);
            AllLand(r.ops, ChainOf(lex)) && After(r.ops, ChainOf(lex)) == ChainOf(lex)
    decreases ev, 0
  {
    hide Tracks; hide AllLand; hide After; hide ChainOf; hide EmitEvs;
    TracksAcyclic(plans, lex);
    var n := |lex| - 1;
    var f := lex[n];
    var live1 := if ev.needsEnv then f.live + [ev.sid] else f.live;
    var inside := lex[n := f.(live := live1)];
    var bias1 := |f.live| + Bit(ev.needsEnv);
    var scopes1 := scopes + [ClassScope(ev.sid, f.unit, bias1)];
    TracksInside(plans, lex, live1);
    EvsLand(plans, inside, scopes, ev.heritage);
    var h := EmitEvs(plans, f.unit, bias1, scopes, ev.heritage);
    EvsLand(h.plans, inside, scopes1, ev.elements);
    var e := EmitEvs(h.plans, f.unit, bias1, scopes1, ev.elements);
    LandAppend(h.ops, e.ops, ChainOf(inside));
    if ev.needsEnv {
      ChainInside(lex, ev.sid);
      WrapLands(ev.sid, Append(h.ops, e.ops), ChainOf(lex));
    } else {
      assert inside == lex;
    }
  }

  lemma ChainInside(lex: Lex, sid: nat)
    requires lex != []
    ensures var n := |lex| - 1;
            ChainOf(lex[n := lex[n].(live := lex[n].live + [sid])]) == Env(ScopeOf(sid), ChainOf(lex))
  {
    var n := |lex| - 1;
    var inside := lex[n := lex[n].(live := lex[n].live + [sid])];
    assert inside[..n] == lex[..n];
    assert (lex[n].live + [sid])[..|lex[n].live|] == lex[n].live;
  }

  // A scope around code that leaves its chain alone.
  lemma WrapLands(sid: nat, body: Ops, e: Env)
    requires AllLand(body, Env(ScopeOf(sid), e)) && After(body, Env(ScopeOf(sid), e)) == Env(ScopeOf(sid), e)
    ensures var ops := Op(PushEnv(sid), Append(body, Op(PopEnv, NoOps)));
            AllLand(ops, e) && After(ops, e) == e
  {
    LandAppend(body, Op(PopEnv, NoOps), Env(ScopeOf(sid), e));
  }

  lemma TracksInside(plans: Plans, lex: Lex, live: seq<nat>)
    requires Tracks(plans, lex) && lex != []
    ensures Tracks(plans, lex[|lex| - 1 := lex[|lex| - 1].(live := live)])
  {
    var n := |lex| - 1;
    var inside := lex[n := lex[n].(live := live)];
    forall i: nat | i < |inside| ensures FrameOk(plans, inside, i) {
      assert FrameOk(plans, lex, i);
    }
    forall i, j | 0 <= i < j < |inside| ensures inside[i].unit < inside[j].unit {
      assert lex[i].unit < lex[j].unit;
    }
  }

  // Environment depth is exact: in every activation of the main unit and of every
  // closure created under it, each access to a captured variable reaches its home
  // unit's own environment, each access to a class scope that class's scope, and each
  // `super` the scope of the class its method was created in; and every construct
  // leaves the chain as it found it.
  lemma DepthExact(u: Unit)
    requires Numbered(u) && Scoped([Frame(u.id, u.hasEnv, u.isArrow, u.usesSuper, [])], [], u.body)
    ensures var r := EmitUnit(map[], u, None, 0, []);
            var e := if u.hasEnv then Env(Own(u.id), Root) else Root;
            AllLand(r.ops, e) && After(r.ops, e) == e
  {
    hide AllLand; hide After; hide WalkUp;
    var f := Frame(u.id, u.hasEnv, u.isArrow, u.usesSuper, []);
    var lex := [f];
    var plans: Plans := map[u.id := UnitPlan(u.hasEnv, u.isArrow, u.usesSuper, None, 0)];
    assert lex[..0] == [];
    EvsLand(plans, lex, [], u.body);
  }

  // The emission of a class, step by step.
  lemma ClassEmits(plans: Plans, unit: nat, bias: nat, scopes: seq<ClassScope>, ev: Ev)
    requires ev.Class? && Acyclic(plans) && unit in plans && NumberedEv(unit, ev)
    ensures NumberedIn(unit, ev.heritage) && NumberedIn(unit, ev.elements)
    ensures var bias1 := bias + Bit(ev.needsEnv);
            var h := EmitEvs(plans, unit, bias1, scopes, ev.heritage);
            var e := EmitEvs(h.plans, unit, bias1, scopes + [ClassScope(ev.sid, unit, bias1)], ev.elements);
            var body := Append(h.ops, e.ops);
            EmitEv(plans, unit, bias, scopes, ev) ==
            Emitted(e.plans, if ev.needsEnv then Op(PushEnv(ev.sid), Append(body, Op(PopEnv, NoOps))) else body)
  {
    hide EmitEvs; hide Append; hide Acyclic;
  }

  // ---- the compiler's own form --------------------------------------------

  // The counters as the source keeps them: one live bias, saved and restored around
  // every nested unit, and a stack of the classes being compiled.
  class Compiler {
    var plans: Plans
    var liveEnvBias: nat
    var classScopes: seq<ClassScope>
    // A depth that does not fit was met; the compilation fails.
    var overflow: bool

    constructor ()
      ensures plans == map[] && liveEnvBias == 0 && classScopes == [] && !overflow
    {
      plans, liveEnvBias, classScopes, overflow := map[], 0, [], false;
    }

    method CompileUnit(u: Unit, parent: Option<nat>) returns (ops: Ops)
      requires Acyclic(plans) && (parent.Some? ==> parent.value in plans && parent.value < u.id) && Numbered(u)
      modifies this
      ensures liveEnvBias == old(liveEnvBias) && classScopes == old(classScopes) && (old(overflow) ==> overflow)
      ensures plans == EmitUnit(old(plans), u, parent, old(liveEnvBias), old(classScopes)).plans
      ensures !overflow ==> ops == EmitUnit(old(plans), u, parent, old(liveEnvBias), old(classScopes)).ops
      ensures var around := if parent.None? then 0 else Total(old(plans), parent.value);
              Shallow(u.body, around + old(liveEnvBias) + Bit(u.hasEnv)) ==> overflow == old(overflow)
      decreases u, 1
    {
      hide EmitEvs;
      var parentBias := liveEnvBias;
      if parent.Some? { TotalKept(plans, plans[u.id := UnitPlan(u.hasEnv, u.isArrow, u.usesSuper, parent, parentBias)],
                                  parent.value); }
      plans := plans[u.id := UnitPlan(u.hasEnv, u.isArrow, u.usesSuper, parent, parentBias)];
      liveEnvBias := 0;
      ops := EmitBody(u.id, u.body);
      liveEnvBias := parentBias;
    }

    method EmitBody(unit: nat, evs: Evs) returns (ops: Ops)
      requires Acyclic(plans) && unit in plans && NumberedIn(unit, evs)
      modifies this
      ensures liveEnvBias == old(liveEnvBias) && classScopes == old(classScopes) && (old(overflow) ==> overflow)
      ensures plans == EmitEvs(old(plans), unit, old(liveEnvBias), old(classScopes), evs).plans
      ensures !overflow ==> ops == EmitEvs(old(plans), unit, old(liveEnvBias), old(classScopes), evs).ops
      ensures Shallow(evs, Total(old(plans), unit) + old(liveEnvBias)) ==> overflow == old(overflow)
      decreases evs, 0
    {
      hide EmitEv; hide Acyclic; hide Total; hide ShallowEv; hide Append;
      if evs.Done? { return NoOps; }
      PlansKeptEv(plans, unit, liveEnvBias, classScopes, evs.head);
      ghost var was := plans;
      var first := EmitOne(unit, evs.head);
      TotalKept(was, plans, unit);
      var more := EmitBody(unit, evs.tail);
      ops := Append(first, more);
    }

    method EmitOne(unit: nat, ev: Ev) returns (ops: Ops)
      requires Acyclic(plans) && unit in plans && NumberedEv(unit, ev)
      modifies this
      ensures liveEnvBias == old(liveEnvBias) && classScopes == old(classScopes) && (old(overflow) ==> overflow)
      ensures plans == EmitEv(old(plans), unit, old(liveEnvBias), old(classScopes), ev).plans
      ensures !overflow ==> ops == EmitEv(old(plans), unit, old(liveEnvBias), old(classScopes), ev).ops
      ensures var height := Total(old(plans), unit) + old(liveEnvBias);
              height <= MAX_ENV_DEPTH && ShallowEv(ev, height) ==> overflow == old(overflow)
      decreases ev, 1
    {
      hide EmitEvs; hide EmitUnit; hide Hops; hide SuperHops; hide HopsToward; hide SuperScope; hide FindScope;
      hide Total; hide Shallow;
      match ev
      case Create(u) =>
        var body := CompileUnit(u, Some(unit));
        ops := Op(Closure(u.id, u.hasEnv, body), NoOps);
      case Class(_, _, _, _) => ops := EmitClass(unit, ev);
      case UseVar(home) =>
        HopsWithin(plans, unit, home);
        var d := EnvDepthBetween(plans, unit, home);
        if d.None? { overflow := true; d := Some(0); }
        ops := Op(Get(Biased(d.value, liveEnvBias), Own(home)), NoOps);
      case UseScope(sid) =>
        var s := FindScope(classScopes, sid);
        var d := Some(0);
        if s.Some? {
          HopsWithin(plans, unit, s.value.outerUnit);
          d := ClassScopeDepth(plans, unit, liveEnvBias, s.value);
        }
        if d.None? { overflow := true; d := Some(0); }
        ops := Op(Get(d.value, ScopeOf(sid)), NoOps);
      case UseSuper =>
        var d := SuperEnvDepthBetween(plans, unit);
        ops := Op(Get(Biased(d, liveEnvBias), ScopeOf(SuperScope(plans, unit, classScopes))), NoOps);
    }

    // The scope is pushed before anything of the class is evaluated, and registered
    // after the heritage, which still sees the outer private names.
    method EmitClass(unit: nat, ev: Ev) returns (ops: Ops)
      requires ev.Class? && Acyclic(plans) && unit in plans && NumberedEv(unit, ev)
      modifies this
      ensures liveEnvBias == old(liveEnvBias) && classScopes == old(classScopes) && (old(overflow) ==> overflow)
      ensures plans == EmitEv(old(plans), unit, old(liveEnvBias), old(classScopes), ev).plans
      ensures !overflow ==> ops == EmitEv(old(plans), unit, old(liveEnvBias), old(classScopes), ev).ops
      ensures var height := Total(old(plans), unit) + old(liveEnvBias);
              height <= MAX_ENV_DEPTH && ShallowEv(ev, height) ==> overflow == old(overflow)
      decreases ev, 0
    {
      hide EmitEvs; hide EmitEv; hide Append; hide Acyclic;
      ghost var bias := liveEnvBias;
      ghost var scopes := classScopes;
      ghost var bias1 := bias + Bit(ev.needsEnv);
      ghost var h := EmitEvs(plans, unit, bias1, scopes, ev.heritage);
      ghost var e := EmitEvs(h.plans, unit, bias1, scopes + [ClassScope(ev.sid, unit, bias1)], ev.elements);
      ClassEmits(plans, unit, bias, scopes, ev);
      if ev.needsEnv { liveEnvBias := liveEnvBias + 1; }
      PlansKept(plans, unit, bias1, scopes, ev.heritage);
      TotalKept(plans, h.plans, unit);
      var first := EmitBody(unit, ev.heritage);
      assert plans == h.plans;
      var outer := classScopes;
      classScopes := classScopes + [ClassScope(ev.sid, unit, liveEnvBias)];
      var second := EmitBody(unit, ev.elements);
      assert plans == e.plans;
      classScopes := outer;
      ops := Append(first, second);
      if ev.needsEnv {
        liveEnvBias := liveEnvBias - 1;
        ops := Op(PushEnv(ev.sid), Append(ops, Op(PopEnv, NoOps)));
      }
    }
  }
}
