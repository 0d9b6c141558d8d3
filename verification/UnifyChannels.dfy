/**
 * Unification with channel variables. A step found for a channel's use is not applied to its payload
 * before the payload is visited. This does no harm as long as each channel variable stands for one
 * channel, with one payload: then a variable never occurs inside its own payload.
 */
module UnifyChannels {
  import opened StatickTypes
  import opened Unify
  import opened UnifyFragments
  import opened UnifyProofs

  // ----- runs that ignore no offset -----

  /** Two distinct channel variables, the first with an offset: the branch that ignores the offset. */
  predicate OffsetIgnored(a: ChannelUse, b: ChannelUse) {
    a.Variable? && b.Variable? && a.name != b.name && a.offset != 0
  }

  /** The run meets no such pair. */
  predicate CarefulTypes(fuel: nat, a: Type, b: Type) {
    fuel == 0 ||
    if a.Channel? && b.Channel? then
      !OffsetIgnored(a.use, b.use) && CarefulTypes(fuel - 1, a.payload, b.payload)
    else if a.Function? && b.Function? then
      CarefulStacks(fuel - 1, a.output, b.output) &&
      var u := VisitStacks(fuel - 1, a.output, b.output);
      (u.Ok? ==> CarefulStacks(fuel - 1, ApplyStack(u.steps, a.input), ApplyStack(u.steps, b.input)))
    else !a.Generic? && b.Generic? ==> CarefulTypes(fuel - 1, b, a)
  }

  predicate CarefulStacks(fuel: nat, a: Stack, b: Stack) {
    fuel == 0 ||
    if a.StackGeneric? then true
    else if b.StackGeneric? then CarefulStacks(fuel - 1, b, a)
    else
      a.Push? && b.Push? ==>
        CarefulTypes(fuel - 1, a.top, b.top) &&
        var u := VisitTypes(fuel - 1, a.top, b.top);
        (u.Ok? ==> CarefulStacks(fuel - 1, ApplyStack(u.steps, a.base), ApplyStack(u.steps, b.base)))
  }

  /** Without offsets there is none to ignore. */
  lemma {:induction false} ZeroOffsetsAreCareful(fuel: nat, a: Type, b: Type, f: Fragment)
    requires TypeIn(a, f) && TypeIn(b, f) && f.uses != AnyUse
    ensures CarefulTypes(fuel, a, b)
  {
    if fuel != 0 {
      if a.Channel? && b.Channel? {
        ZeroOffsetsAreCareful(fuel - 1, a.payload, b.payload, f);
      } else if a.Function? && b.Function? {
        ZeroOffsetStacks(fuel - 1, a.output, b.output, f);
        var u := VisitStacks(fuel - 1, a.output, b.output);
        if u.Ok? {
          StacksTriangular(fuel - 1, a.output, b.output, f);
          StaysIn(u.steps, a.input, f);
          StaysIn(u.steps, b.input, f);
          ZeroOffsetStacks(fuel - 1, ApplyStack(u.steps, a.input), ApplyStack(u.steps, b.input), f);
        }
      } else if !a.Generic? && b.Generic? {
        ZeroOffsetsAreCareful(fuel - 1, b, a, f);
      }
    }
  }

  lemma {:induction false} ZeroOffsetStacks(fuel: nat, a: Stack, b: Stack, f: Fragment)
    requires StackIn(a, f) && StackIn(b, f) && f.uses != AnyUse
    ensures CarefulStacks(fuel, a, b)
  {
    if fuel != 0 {
      if a.StackGeneric? {
      } else if b.StackGeneric? {
        ZeroOffsetStacks(fuel - 1, b, a, f);
      } else if a.Push? && b.Push? {
        ZeroOffsetsAreCareful(fuel - 1, a.top, b.top, f);
        var u := VisitTypes(fuel - 1, a.top, b.top);
        if u.Ok? {
          TypesTriangular(fuel - 1, a.top, b.top, f);
          StaysIn(u.steps, a.base, f);
          StaysIn(u.steps, b.base, f);
          ZeroOffsetStacks(fuel - 1, ApplyStack(u.steps, a.base), ApplyStack(u.steps, b.base), f);
        }
      }
    }
  }

  lemma {:induction false} StaysIn(steps: seq<Step>, k: Stack, f: Fragment)
    requires StackIn(k, f) && StepsIn(steps, f)
    ensures StackIn(ApplyStack(steps, k), f)
  {
    if steps != [] {
      StepStackFacts(k, steps[0], f);
      StaysIn(steps[1..], StepStack(k, steps[0]), f);
    }
  }

  // ----- the steps, as equations, say what the arguments say -----

  lemma UsesEquivalent(a: ChannelUse, b: ChannelUse, s: Subst)
    requires !OffsetIgnored(a, b)
    ensures var r := VisitChannelUse(a, b);
            if r.Ok? then SubUse(s, a) == SubUse(s, b) <==> SolvesAll(s, r.steps) else SubUse(s, a) != SubUse(s, b)
  {
    var r := VisitChannelUse(a, b);
    assert r.Ok? && r.steps != [] ==> r.steps == [r.steps[0]] && (SolvesAll(s, r.steps) <==> Solves(s, r.steps[0]));
  }

  lemma SolvesBoth(s: Subst, u: seq<Step>, w: seq<Step>)
    ensures SolvesAll(s, u + w) <==> SolvesAll(s, u) && SolvesAll(s, w)
  {
    if SolvesAll(s, u + w) {
      assert forall step | step in u :: step in u + w;
      assert forall step | step in w :: step in u + w;
    }
  }

  /** No type variable can take the shortcut that zeroes a channel's use instead of binding. */
  predicate NoShortcut(f: Fragment) {
    f.uses == NoVariables || Droppable !in f.cs
  }

  /** No constraint refuses a binding. */
  predicate Unconstrained(f: Fragment) {
    f.cs == {} && if f.bottom then f.ss == {AllowBottom} else f.ss <= {AllowBottom}
  }

  /** A substitution unifies the arguments exactly when it solves every step; unconstrained runs fail only if none does. */
  lemma {:induction false} TypesEquivalent(fuel: nat, a: Type, b: Type, s: Subst, f: Fragment)
    requires TypeIn(a, f) && TypeIn(b, f) && NoShortcut(f) && CarefulTypes(fuel, a, b)
    ensures var r := VisitTypes(fuel, a, b);
            && (r.Ok? ==> (SubType(s, a) == SubType(s, b) <==> SolvesAll(s, r.steps)))
            && (r.Err? && Unconstrained(f) ==> SubType(s, a) != SubType(s, b))
  {
    if fuel != 0 {
      if a.Channel? && b.Channel? {
        UsesEquivalent(a.use, b.use, s);
        TypesEquivalent(fuel - 1, a.payload, b.payload, s, f);
        var u, w := VisitChannelUse(a.use, b.use), VisitTypes(fuel - 1, a.payload, b.payload);
        if u.Ok? && w.Ok? { SolvesBoth(s, u.steps, w.steps); }
      } else if a.Function? && b.Function? {
        StacksEquivalent(fuel - 1, a.output, b.output, s, f);
        var u := VisitStacks(fuel - 1, a.output, b.output);
        if u.Ok? {
          StacksTriangular(fuel - 1, a.output, b.output, f);
          RestEquivalent(fuel - 1, a.input, b.input, u.steps, s, f);
        }
      } else if a.Generic? {
        BoundTypeEquivalent(a, b, s, f);
      } else if b.Generic? {
        TypesEquivalent(fuel - 1, b, a, s, f);
      }
    }
  }

  lemma BoundType(a: Type, b: Type, f: Fragment)
    requires a.Generic? && TypeIn(a, f) && TypeIn(b, f) && NoShortcut(f)
    ensures BindType(a, b).Ok? ==> BindType(a, b).steps == if a == b then [] else [TypeStep(a.n, b)]
    ensures BindType(a, b).Ok? && a != b ==> TVar(a.n) !in TypeVars(b)
    ensures Unconstrained(f) && TVar(a.n) !in TypeVars(b) ==> BindType(a, b).Ok?
  {
    TypeContainsIsOccurs(b, a.n, f);
    assert a == Generic(a.n, f.cs) && (b.Generic? ==> a.constraints + b.constraints == b.constraints);
    assert Unconstrained(f) ==> Missing(a.constraints, b) == {};
  }

  lemma BoundTypeEquivalent(a: Type, b: Type, s: Subst, f: Fragment)
    requires a.Generic? && TypeIn(a, f) && TypeIn(b, f) && NoShortcut(f)
    ensures var r := BindType(a, b);
            if r.Ok? then SubType(s, a) == SubType(s, b) <==> SolvesAll(s, r.steps)
            else Unconstrained(f) ==> SubType(s, a) != SubType(s, b)
  {
    TypeContainsIsOccurs(b, a.n, f);
    if TVar(a.n) in TypeVars(b) {
      OccursIsBiggerType(s, TVar(a.n), b);
    } else {
      var step := TypeStep(a.n, b);
      BoundType(a, b, f);
      assert SolvesAll(s, [step]) <==> Solves(s, step);
    }
  }

  lemma {:induction false} StacksEquivalent(fuel: nat, a: Stack, b: Stack, s: Subst, f: Fragment)
    requires StackIn(a, f) && StackIn(b, f) && NoShortcut(f) && CarefulStacks(fuel, a, b)
    ensures var r := VisitStacks(fuel, a, b);
            && (r.Ok? ==> (SubStack(s, a) == SubStack(s, b) <==> SolvesAll(s, r.steps)))
            && (r.Err? && Unconstrained(f) ==> SubStack(s, a) != SubStack(s, b))
    decreases fuel, 0
  {
    if fuel != 0 {
      if a.StackGeneric? {
        BoundStackEquivalent(a, b, s, f);
      } else if b.StackGeneric? {
        StacksEquivalent(fuel - 1, b, a, s, f);
      } else if a.Push? && b.Push? {
        TypesEquivalent(fuel - 1, a.top, b.top, s, f);
        var u := VisitTypes(fuel - 1, a.top, b.top);
        if u.Ok? {
          TypesTriangular(fuel - 1, a.top, b.top, f);
          RestEquivalent(fuel - 1, a.base, b.base, u.steps, s, f);
        }
      }
    }
  }

  lemma BoundStackEquivalent(a: Stack, b: Stack, s: Subst, f: Fragment)
    requires a.StackGeneric? && StackIn(a, f) && StackIn(b, f)
    ensures var r := BindStack(a, b);
            if r.Ok? then SubStack(s, a) == SubStack(s, b) <==> SolvesAll(s, r.steps)
            else Unconstrained(f) ==> SubStack(s, a) != SubStack(s, b)
  {
    StackContainsStackIsOccurs(b, a.n, f);
    AddConstraintsIsIdentity(b, f);
    AllowBottomIsSatisfied(b);
    if SVar(a.n) in StackVars(b) {
      OccursIsBiggerStack(s, SVar(a.n), b);
    } else {
      var step := StackStep(a.n, b);
      assert BindStack(a, b).Ok? ==> BindStack(a, b) == Ok([step]);
      assert SolvesAll(s, [step]) <==> Solves(s, step);
    }
  }

  lemma {:induction false} RestEquivalent(fuel: nat, x: Stack, y: Stack, first: seq<Step>, s: Subst, f: Fragment)
    requires StackIn(x, f) && StackIn(y, f) && NoShortcut(f) && StepsIn(first, f)
    requires CarefulStacks(fuel, ApplyStack(first, x), ApplyStack(first, y))
    ensures var r := VisitStacks(fuel, ApplyStack(first, x), ApplyStack(first, y));
            && (r.Ok? ==> (SolvesAll(s, first) && SubStack(s, x) == SubStack(s, y) <==> SolvesAll(s, first + r.steps)))
            && (r.Err? && Unconstrained(f) && SolvesAll(s, first) ==> SubStack(s, x) != SubStack(s, y))
    decreases fuel, 1
  {
    StaysIn(first, x, f);
    StaysIn(first, y, f);
    StacksEquivalent(fuel, ApplyStack(first, x), ApplyStack(first, y), s, f);
    var r := VisitStacks(fuel, ApplyStack(first, x), ApplyStack(first, y));
    if r.Ok? { SolvesBoth(s, first, r.steps); }
    if SolvesAll(s, first) {
      SolvedStepsStack(s, first, x);
      SolvedStepsStack(s, first, y);
    }
  }

  // ----- channel variables in terms and in steps -----

  function UseVars(u: ChannelUse): set<nat> {
    if u.Variable? then {u.name} else {}
  }

  function TypeUses(t: Type): set<nat> {
    match t
    case Channel(u, _, c) => UseVars(u) + TypeUses(c)
    case Function(i, o) => StackUses(i) + StackUses(o)
    case _ => {}
  }

  function StackUses(k: Stack): set<nat> {
    match k
    case Push(b, t) => StackUses(b) + TypeUses(t)
    case _ => {}
  }

  /** The channel variables a step speaks of. */
  function UsesOf(step: Step): set<nat> {
    match step
    case TypeStep(_, t) => TypeUses(t)
    case StackStep(_, k) => StackUses(k)
    case ChannelStep(n, u) => {n} + UseVars(u)
  }

  predicate Within(steps: seq<Step>, vs: set<nat>) {
    forall step | step in steps :: UsesOf(step) <= vs
  }

  lemma {:induction false} StepTypeUses(t: Type, step: Step)
    ensures TypeUses(StepType(t, step)) <= TypeUses(t) + UsesOf(step)
  {
    match t
    case Channel(_, _, c) => StepTypeUses(c, step);
    case Function(i, o) => StepStackUses(i, step); StepStackUses(o, step);
    case _ =>
  }

  lemma {:induction false} StepStackUses(k: Stack, step: Step)
    ensures StackUses(StepStack(k, step)) <= StackUses(k) + UsesOf(step)
  {
    match k
    case Push(b, t) => StepStackUses(b, step); StepTypeUses(t, step);
    case _ =>
  }

  lemma {:induction false} ApplyStackUses(steps: seq<Step>, k: Stack, vs: set<nat>)
    requires Within(steps, vs) && StackUses(k) <= vs
    ensures StackUses(ApplyStack(steps, k)) <= vs
  {
    if steps != [] {
      StepStackUses(k, steps[0]);
      ApplyStackUses(steps[1..], StepStack(k, steps[0]), vs);
    }
  }

  lemma {:induction false} AddConstraintsUses(k: Stack, cs: set<StackConstraint>)
    ensures StackUses(AddConstraints(k, cs)) == StackUses(k)
  {
    match k
    case Push(b, _) => AddConstraintsUses(b, cs);
    case _ =>
  }

  lemma JoinWithin(u: seq<Step>, us: set<nat>, w: seq<Step>, ws: set<nat>, vs: set<nat>)
    requires Within(u, us) && Within(w, ws) && us <= vs && ws <= vs
    ensures Within(u + w, vs)
  {
    forall step | step in u + w ensures UsesOf(step) <= vs {
      if step in u { assert UsesOf(step) <= us; } else { assert UsesOf(step) <= ws; }
    }
  }

  lemma UsesWithin(a: ChannelUse, b: ChannelUse)
    ensures VisitChannelUse(a, b).Ok? ==> Within(VisitChannelUse(a, b).steps, UseVars(a) + UseVars(b))
  {
  }

  lemma BoundWithin(a: Type, b: Type)
    requires a.Generic?
    ensures BindType(a, b).Ok? ==> Within(BindType(a, b).steps, TypeUses(b))
  {
  }

  /** A run speaks of no channel variables but those of its arguments. */
  lemma {:induction false} TypesWithin(fuel: nat, a: Type, b: Type)
    ensures var r := VisitTypes(fuel, a, b); r.Ok? ==> Within(r.steps, TypeUses(a) + TypeUses(b))
  {
    var r := VisitTypes(fuel, a, b);
    if r.Ok? {
      var vs := TypeUses(a) + TypeUses(b);
      if a.Channel? && b.Channel? {
        TypesWithin(fuel - 1, a.payload, b.payload);
        UsesWithin(a.use, b.use);
        JoinWithin(VisitChannelUse(a.use, b.use).steps, UseVars(a.use) + UseVars(b.use),
                   VisitTypes(fuel - 1, a.payload, b.payload).steps, TypeUses(a.payload) + TypeUses(b.payload), vs);
      } else if a.Function? && b.Function? {
        StacksWithin(fuel - 1, a.output, b.output);
        var u := VisitStacks(fuel - 1, a.output, b.output).steps;
        JoinWithin(u, StackUses(a.output) + StackUses(b.output), [], {}, vs);
        assert u + [] == u;
        RestWithin(fuel - 1, a.input, b.input, u, vs);
      } else if a.Generic? {
        BoundWithin(a, b);
      } else if b.Generic? {
        TypesWithin(fuel - 1, b, a);
        assert TypeUses(b) + TypeUses(a) == vs;
      }
    }
  }

  lemma {:induction false} StacksWithin(fuel: nat, a: Stack, b: Stack)
    ensures var r := VisitStacks(fuel, a, b); r.Ok? ==> Within(r.steps, StackUses(a) + StackUses(b))
    decreases fuel, 0
  {
    if fuel != 0 {
      if a.StackGeneric? {
        AddConstraintsUses(b, a.stackConstraints);
      } else if b.StackGeneric? {
        StacksWithin(fuel - 1, b, a);
      } else if a.Push? && b.Push? {
        TypesWithin(fuel - 1, a.top, b.top);
        var u := VisitTypes(fuel - 1, a.top, b.top);
        if u.Ok? { RestWithin(fuel - 1, a.base, b.base, u.steps, StackUses(a) + StackUses(b)); }
      }
    }
  }

  lemma {:induction false} RestWithin(fuel: nat, x: Stack, y: Stack, first: seq<Step>, vs: set<nat>)
    requires Within(first, vs) && StackUses(x) <= vs && StackUses(y) <= vs
    ensures var r := VisitStacks(fuel, ApplyStack(first, x), ApplyStack(first, y)); r.Ok? ==> Within(first + r.steps, vs)
    decreases fuel, 1
  {
    ApplyStackUses(first, x, vs);
    ApplyStackUses(first, y, vs);
    StacksWithin(fuel, ApplyStack(first, x), ApplyStack(first, y));
  }

  // ----- a channel step commutes with steps that do not speak of its variable -----

  lemma {:induction false} UnusedType(t: Type, x: nat, v: ChannelUse)
    requires x !in TypeUses(t)
    ensures StepType(t, ChannelStep(x, v)) == t
  {
    match t
    case Channel(_, _, c) => UnusedType(c, x, v);
    case Function(i, o) => UnusedStack(i, x, v); UnusedStack(o, x, v);
    case _ =>
  }

  lemma {:induction false} UnusedStack(k: Stack, x: nat, v: ChannelUse)
    requires x !in StackUses(k)
    ensures StepStack(k, ChannelStep(x, v)) == k
  {
    match k
    case Push(b, t) => UnusedStack(b, x, v); UnusedType(t, x, v);
    case _ =>
  }

  lemma {:induction false} StepCommutes(t: Type, x: nat, v: ChannelUse, step: Step)
    requires x !in UsesOf(step)
    ensures StepType(StepType(t, ChannelStep(x, v)), step) == StepType(StepType(t, step), ChannelStep(x, StepUse(v, step)))
  {
    match t
    case Channel(_, _, c) => StepCommutes(c, x, v, step);
    case Generic(n, _) => if step.TypeStep? && n == step.n { UnusedType(step.t, x, StepUse(v, step)); }
    case Function(i, o) => StackStepCommutes(i, x, v, step); StackStepCommutes(o, x, v, step);
    case _ =>
  }

  lemma {:induction false} StackStepCommutes(k: Stack, x: nat, v: ChannelUse, step: Step)
    requires x !in UsesOf(step)
    ensures StepStack(StepStack(k, ChannelStep(x, v)), step) == StepStack(StepStack(k, step), ChannelStep(x, StepUse(v, step)))
  {
    match k
    case Push(b, t) => StackStepCommutes(b, x, v, step); StepCommutes(t, x, v, step);
    case StackGeneric(n, _) => if step.StackStep? && n == step.n { UnusedStack(step.s, x, StepUse(v, step)); }
    case Bottom =>
  }

  predicate Free(x: nat, steps: seq<Step>) {
    forall step | step in steps :: x !in UsesOf(step)
  }

  lemma {:induction false} Commutes(steps: seq<Step>, t: Type, x: nat, v: ChannelUse)
    requires Free(x, steps)
    ensures ApplyType(steps, StepType(t, ChannelStep(x, v))) == StepType(ApplyType(steps, t), ChannelStep(x, ApplyUse(steps, v)))
  {
    if steps != [] {
      StepCommutes(t, x, v, steps[0]);
      Commutes(steps[1..], StepType(t, steps[0]), x, StepUse(v, steps[0]));
    }
  }

  lemma {:induction false} StackCommutes(steps: seq<Step>, k: Stack, x: nat, v: ChannelUse)
    requires Free(x, steps)
    ensures ApplyStack(steps, StepStack(k, ChannelStep(x, v))) == StepStack(ApplyStack(steps, k), ChannelStep(x, ApplyUse(steps, v)))
  {
    if steps != [] {
      StackStepCommutes(k, x, v, steps[0]);
      StackCommutes(steps[1..], StepStack(k, steps[0]), x, StepUse(v, steps[0]));
    }
  }

  /** What becomes of a variable becomes of it under any offset. */
  lemma {:induction false} Shifts(steps: seq<Step>, n: nat, q: nat, o: nat)
    ensures ApplyUse(steps, Variable(n, q + o)) ==
            match ApplyUse(steps, Variable(n, q))
            case Infinity => Infinity
            case Constant(k) => Constant(k + o)
            case Variable(m, p) => Variable(m, p + o)
  {
    if steps != [] {
      var u := StepUse(Variable(n, q), steps[0]);
      if u.Variable? {
        Shifts(steps[1..], u.name, u.offset, o);
      } else {
        Fixed(steps[1..], u);
        Fixed(steps[1..], StepUse(Variable(n, q + o), steps[0]));
      }
    }
  }

  lemma {:induction false} Fixed(steps: seq<Step>, u: ChannelUse)
    requires !u.Variable?
    ensures ApplyUse(steps, u) == u
  {
    if steps != [] { Fixed(steps[1..], u); }
  }

  // ----- one payload for each channel variable -----

  /** The payload each channel variable stands with. */
  type Payloads = nat -> Type

  predicate TypeFits(t: Type, p: Payloads) {
    match t
    case Channel(u, _, c) => (u.Variable? ==> c == p(u.name)) && TypeFits(c, p)
    case Function(i, o) => StackFits(i, p) && StackFits(o, p)
    case _ => true
  }

  predicate StackFits(k: Stack, p: Payloads) {
    match k
    case Push(b, t) => StackFits(b, p) && TypeFits(t, p)
    case _ => true
  }

  function Stepped(p: Payloads, step: Step): Payloads {
    (n: nat) => StepType(p(n), step)
  }

  function Applied(p: Payloads, steps: seq<Step>): Payloads {
    (n: nat) => ApplyType(steps, p(n))
  }

  lemma {:induction false} SamePayloads(t: Type, p: Payloads, q: Payloads)
    requires TypeFits(t, p) && forall n :: p(n) == q(n)
    ensures TypeFits(t, q)
  {
    match t
    case Channel(_, _, c) => SamePayloads(c, p, q);
    case Function(i, o) => SameStackPayloads(i, p, q); SameStackPayloads(o, p, q);
    case _ =>
  }

  lemma {:induction false} SameStackPayloads(k: Stack, p: Payloads, q: Payloads)
    requires StackFits(k, p) && forall n :: p(n) == q(n)
    ensures StackFits(k, q)
  {
    match k
    case Push(b, t) => SameStackPayloads(b, p, q); SamePayloads(t, p, q);
    case _ =>
  }

  /** A channel variable that occurs in a term has its payload strictly inside. */
  lemma {:induction false} InsideIsBigger(t: Type, x: nat, p: Payloads, steps: seq<Step>)
    requires TypeFits(t, p) && x in TypeUses(t)
    ensures TypeSize(ApplyType(steps, t)) > TypeSize(ApplyType(steps, p(x)))
  {
    match t
    case Channel(u, d, c) =>
      ApplyChannel(steps, u, d, c);
      if x in TypeUses(c) { InsideIsBigger(c, x, p, steps); }
    case Function(i, o) =>
      ApplyFunction(steps, i, o);
      if x in StackUses(i) { InsideStackIsBigger(i, x, p, steps); } else { InsideStackIsBigger(o, x, p, steps); }
    case _ =>
  }

  lemma {:induction false} InsideStackIsBigger(k: Stack, x: nat, p: Payloads, steps: seq<Step>)
    requires StackFits(k, p) && x in StackUses(k)
    ensures StackSize(ApplyStack(steps, k)) > TypeSize(ApplyType(steps, p(x)))
  {
    match k
    case Push(b, t) =>
      ApplyPush(steps, b, t);
      if x in StackUses(b) { InsideStackIsBigger(b, x, p, steps); } else { InsideIsBigger(t, x, p, steps); }
    case _ =>
  }

  // ----- a step that respects the payloads -----

  /** A type or stack variable's new term has one payload for each variable too; merged variables have equal payloads. */
  ghost predicate Respects(step: Step, p: Payloads) {
    match step
    case TypeStep(n, t) => TypeFits(t, p) && TVar(n) !in TypeVars(t)
    case StackStep(n, k) => StackFits(k, p) && SVar(n) !in StackVars(k)
    case ChannelStep(n, u) => u.Variable? ==> StepType(p(n), step) == StepType(p(u.name), step)
  }

  lemma {:induction false} AbsentFits(t: Type, step: Step, p: Payloads)
    requires TypeFits(t, p) && !step.ChannelStep? && Target(step) !! TypeVars(t)
    ensures TypeFits(t, Stepped(p, step))
  {
    match t
    case Channel(_, _, c) => AbsentFits(c, step, p); StepTypeAbsent(c, step);
    case Function(i, o) => AbsentStackFits(i, step, p); AbsentStackFits(o, step, p);
    case _ =>
  }

  lemma {:induction false} AbsentStackFits(k: Stack, step: Step, p: Payloads)
    requires StackFits(k, p) && !step.ChannelStep? && Target(step) !! StackVars(k)
    ensures StackFits(k, Stepped(p, step))
  {
    match k
    case Push(b, t) => AbsentStackFits(b, step, p); AbsentFits(t, step, p);
    case _ =>
  }

  lemma {:induction false} StepFits(t: Type, step: Step, p: Payloads)
    requires TypeFits(t, p) && Respects(step, p)
    ensures TypeFits(StepType(t, step), Stepped(p, step))
  {
    match t
    case Channel(_, _, c) => StepFits(c, step, p);
    case Generic(n, _) => if step.TypeStep? && n == step.n { AbsentFits(step.t, step, p); }
    case Function(i, o) => StackStepFits(i, step, p); StackStepFits(o, step, p);
    case _ =>
  }

  lemma {:induction false} StackStepFits(k: Stack, step: Step, p: Payloads)
    requires StackFits(k, p) && Respects(step, p)
    ensures StackFits(StepStack(k, step), Stepped(p, step))
  {
    match k
    case Push(b, t) => StackStepFits(b, step, p); StepFits(t, step, p);
    case StackGeneric(n, _) => if step.StackStep? && n == step.n { AbsentStackFits(step.s, step, p); }
    case Bottom =>
  }

  // ----- runs that keep one payload for each channel variable -----

  /** Variables that the steps merge get the same payload. */
  ghost predicate Coherent(steps: seq<Step>, p: Payloads) {
    forall n: nat, m: nat, q: nat :: ApplyUse(steps, Variable(n, 0)) == Variable(m, q) ==> ApplyType(steps, p(n)) == ApplyType(steps, p(m))
  }

  ghost predicate KeepsFit(steps: seq<Step>, p: Payloads) {
    && (forall t | TypeFits(t, p) :: TypeFits(ApplyType(steps, t), Applied(p, steps)))
    && (forall k | StackFits(k, p) :: StackFits(ApplyStack(steps, k), Applied(p, steps)))
  }

  lemma NoStepKeepsFit(p: Payloads)
    ensures Coherent([], p) && KeepsFit([], p)
  {
    forall t | TypeFits(t, p) ensures TypeFits(ApplyType([], t), Applied(p, [])) { SamePayloads(t, p, Applied(p, [])); }
    forall k | StackFits(k, p) ensures StackFits(ApplyStack([], k), Applied(p, [])) { SameStackPayloads(k, p, Applied(p, [])); }
  }

  lemma OneStepKeepsFit(step: Step, p: Payloads)
    requires Respects(step, p)
    ensures KeepsFit([step], p)
    ensures !step.ChannelStep? ==> Coherent([step], p)
  {
    forall n ensures Stepped(p, step)(n) == Applied(p, [step])(n) {
      assert ApplyType([step], p(n)) == ApplyType([], StepType(p(n), step));
    }
    forall t | TypeFits(t, p) ensures TypeFits(ApplyType([step], t), Applied(p, [step])) {
      StepFits(t, step, p);
      SamePayloads(StepType(t, step), Stepped(p, step), Applied(p, [step]));
      assert ApplyType([step], t) == ApplyType([], StepType(t, step));
    }
    forall k | StackFits(k, p) ensures StackFits(ApplyStack([step], k), Applied(p, [step])) {
      StackStepFits(k, step, p);
      SameStackPayloads(StepStack(k, step), Stepped(p, step), Applied(p, [step]));
      assert ApplyStack([step], k) == ApplyStack([], StepStack(k, step));
    }
    if !step.ChannelStep? {
      forall n: nat ensures ApplyUse([step], Variable(n, 0)) == Variable(n, 0) {
        assert ApplyUse([step], Variable(n, 0)) == ApplyUse([], Variable(n, 0));
      }
    }
  }

  /** One run after another, on what the first has made of the rest. */
  lemma BothKeepFit(u: seq<Step>, w: seq<Step>, p: Payloads)
    requires Coherent(u, p) && KeepsFit(u, p) && Coherent(w, Applied(p, u)) && KeepsFit(w, Applied(p, u))
    ensures Coherent(u + w, p) && KeepsFit(u + w, p)
  {
    var q := Applied(p, u);
    forall n ensures Applied(q, w)(n) == Applied(p, u + w)(n) { ApplyAppend(u, w, p(n)); }
    forall t | TypeFits(t, p) ensures TypeFits(ApplyType(u + w, t), Applied(p, u + w)) {
      ApplyAppend(u, w, t);
      assert TypeFits(ApplyType(u, t), q);
      SamePayloads(ApplyType(w, ApplyType(u, t)), Applied(q, w), Applied(p, u + w));
    }
    forall k | StackFits(k, p) ensures StackFits(ApplyStack(u + w, k), Applied(p, u + w)) {
      ApplyStackAppend(u, w, k);
      assert StackFits(ApplyStack(u, k), q);
      SameStackPayloads(ApplyStack(w, ApplyStack(u, k)), Applied(q, w), Applied(p, u + w));
    }
    forall n: nat, m: nat, o: nat | ApplyUse(u + w, Variable(n, 0)) == Variable(m, o)
      ensures ApplyType(u + w, p(n)) == ApplyType(u + w, p(m))
    {
      BothCoherent(u, w, p, n, m, o);
    }
  }

  lemma BothCoherent(u: seq<Step>, w: seq<Step>, p: Payloads, n: nat, m: nat, o: nat)
    requires Coherent(u, p) && Coherent(w, Applied(p, u)) && ApplyUse(u + w, Variable(n, 0)) == Variable(m, o)
    ensures ApplyType(u + w, p(n)) == ApplyType(u + w, p(m))
  {
    ApplyUseAppend(u, w, Variable(n, 0));
    ApplyAppend(u, w, p(n));
    ApplyAppend(u, w, p(m));
    var v := ApplyUse(u, Variable(n, 0));
    if v.Variable? {
      Shifts(w, v.name, 0, v.offset);
      assert ApplyType(u, p(n)) == ApplyType(u, p(v.name));
      ApplyAppend(u, w, p(v.name));
    } else {
      Fixed(w, v);
    }
  }

  lemma {:induction false} ApplyUseAppend(u: seq<Step>, w: seq<Step>, x: ChannelUse)
    ensures ApplyUse(u + w, x) == ApplyUse(w, ApplyUse(u, x))
  {
    if u == [] {
      assert u + w == w;
    } else {
      assert (u + w)[1..] == u[1..] + w;
      ApplyUseAppend(u[1..], w, StepUse(x, u[0]));
    }
  }

  /** The channel case: the variable that the use's step removes occurs in neither payload. */
  lemma BoundIsOutside(c: Type, d: Type, x: nat, p: Payloads, w: seq<Step>)
    requires TypeFits(c, p) && TypeFits(d, p) && ApplyType(w, c) == ApplyType(w, d) && (c == p(x) || d == p(x))
    ensures x !in TypeUses(c) + TypeUses(d)
  {
    if x in TypeUses(c) { InsideIsBigger(c, x, p, w); }
    if x in TypeUses(d) { InsideIsBigger(d, x, p, w); }
  }

  /** A step for the use, and then the payload's: the other way round the step would be `later`. */
  lemma ChannelStepFirst(x: nat, v: ChannelUse, w: seq<Step>, p: Payloads)
    requires Free(x, w) && Coherent(w, p) && KeepsFit(w, p)
    requires v.Variable? ==> ApplyType(w, p(x)) == ApplyType(w, p(v.name))
    ensures Coherent([ChannelStep(x, v)] + w, p) && KeepsFit([ChannelStep(x, v)] + w, p)
  {
    var u := ChannelStep(x, v);
    var later := ChannelStep(x, ApplyUse(w, v));
    var q := Applied(p, w);
    assert ([u] + w)[1..] == w;
    forall t ensures ApplyType([u] + w, t) == StepType(ApplyType(w, t), later) { Commutes(w, t, x, v); }
    forall k ensures ApplyStack([u] + w, k) == StepStack(ApplyStack(w, k), later) { StackCommutes(w, k, x, v); }
    LaterRespects(x, v, w, p);
    forall t | TypeFits(t, p) ensures TypeFits(ApplyType([u] + w, t), Applied(p, [u] + w)) {
      StepFits(ApplyType(w, t), later, q);
      SamePayloads(ApplyType([u] + w, t), Stepped(q, later), Applied(p, [u] + w));
    }
    forall k | StackFits(k, p) ensures StackFits(ApplyStack([u] + w, k), Applied(p, [u] + w)) {
      StackStepFits(ApplyStack(w, k), later, q);
      SameStackPayloads(ApplyStack([u] + w, k), Stepped(q, later), Applied(p, [u] + w));
    }
    forall n: nat, m: nat, o: nat | ApplyUse([u] + w, Variable(n, 0)) == Variable(m, o)
      ensures ApplyType([u] + w, p(n)) == ApplyType([u] + w, p(m))
    {
      if n == x && !v.Variable? { Fixed(w, StepUse(Variable(n, 0), u)); }
      if n == x && v.Variable? { Shifts(w, v.name, 0, v.offset); }
    }
  }

  lemma LaterRespects(x: nat, v: ChannelUse, w: seq<Step>, p: Payloads)
    requires Coherent(w, p) && (v.Variable? ==> ApplyType(w, p(x)) == ApplyType(w, p(v.name)))
    ensures Respects(ChannelStep(x, ApplyUse(w, v)), Applied(p, w))
  {
    if v.Variable? {
      Shifts(w, v.name, 0, v.offset);
      if ApplyUse(w, v).Variable? {
        assert ApplyType(w, p(v.name)) == ApplyType(w, p(ApplyUse(w, v).name));
      }
    } else {
      Fixed(w, v);
    }
  }

  /** What a run does: it makes its arguments equal, and each variable still stands with one payload. */
  ghost predicate Good(w: seq<Step>, a: Type, b: Type, p: Payloads) {
    ApplyType(w, a) == ApplyType(w, b) && Coherent(w, p) && KeepsFit(w, p)
  }

  ghost predicate GoodStacks(w: seq<Step>, a: Stack, b: Stack, p: Payloads) {
    ApplyStack(w, a) == ApplyStack(w, b) && Coherent(w, p) && KeepsFit(w, p)
  }

  /** The one step for two uses, if any. */
  lemma UseStep(a: ChannelUse, b: ChannelUse) returns (x: nat, v: ChannelUse)
    requires VisitChannelUse(a, b).Ok? && VisitChannelUse(a, b).steps != [] && !OffsetIgnored(a, b)
    ensures VisitChannelUse(a, b).steps == [ChannelStep(x, v)]
    ensures StepUse(a, ChannelStep(x, v)) == StepUse(b, ChannelStep(x, v))
    ensures (a.Variable? && a.name == x && (v.Variable? ==> b.Variable? && b.name == v.name)) || (b.Variable? && b.name == x && !v.Variable?)
  {
    var u := VisitChannelUse(a, b).steps;
    x, v := u[0].n, u[0].use;
  }

  lemma ChannelIsGood(a: Type, b: Type, w: seq<Step>, p: Payloads)
    requires a.Channel? && b.Channel? && a.direction == b.direction && TypeFits(a, p) && TypeFits(b, p)
    requires VisitChannelUse(a.use, b.use).Ok? && !OffsetIgnored(a.use, b.use)
    requires Good(w, a.payload, b.payload, p) && Within(w, TypeUses(a.payload) + TypeUses(b.payload))
    ensures Good(VisitChannelUse(a.use, b.use).steps + w, a, b, p)
  {
    var u := VisitChannelUse(a.use, b.use).steps;
    if u == [] {
      assert u + w == w && a.use == b.use;
      ApplyChannel(w, a.use, a.direction, a.payload);
      ApplyChannel(w, b.use, b.direction, b.payload);
    } else {
      var x, v := UseStep(a.use, b.use);
      assert u + w == [ChannelStep(x, v)] + w;
      BoundIsOutside(a.payload, b.payload, x, p, w);
      OutsideIsFree(x, w, TypeUses(a.payload) + TypeUses(b.payload));
      ChannelStepFirst(x, v, w, p);
      StepThenPayload(a, x, v, w);
      StepThenPayload(b, x, v, w);
    }
  }

  lemma OutsideIsFree(x: nat, w: seq<Step>, vs: set<nat>)
    requires Within(w, vs) && x !in vs
    ensures Free(x, w)
  {
    forall step | step in w ensures x !in UsesOf(step) { assert UsesOf(step) <= vs; }
  }

  lemma StepThenPayload(a: Type, x: nat, v: ChannelUse, w: seq<Step>)
    requires a.Channel? && x !in TypeUses(a.payload)
    ensures ApplyType([ChannelStep(x, v)] + w, a) ==
            Channel(ApplyUse(w, StepUse(a.use, ChannelStep(x, v))), a.direction, ApplyType(w, a.payload))
  {
    var u := ChannelStep(x, v);
    UnusedType(a.payload, x, v);
    assert ([u] + w)[1..] == w && StepType(a, u) == Channel(StepUse(a.use, u), a.direction, a.payload);
    ApplyChannel(w, StepUse(a.use, u), a.direction, a.payload);
  }

  lemma {:induction false} TypesSound(fuel: nat, a: Type, b: Type, p: Payloads, f: Fragment)
    requires TypeIn(a, f) && TypeIn(b, f) && NoShortcut(f) && CarefulTypes(fuel, a, b) && TypeFits(a, p) && TypeFits(b, p)
    ensures var r := VisitTypes(fuel, a, b); r.Ok? ==> Good(r.steps, a, b, p)
  {
    var r := VisitTypes(fuel, a, b);
    if r.Ok? {
      if a.Channel? && b.Channel? {
        TypesSound(fuel - 1, a.payload, b.payload, p, f);
        TypesWithin(fuel - 1, a.payload, b.payload);
        ChannelIsGood(a, b, VisitTypes(fuel - 1, a.payload, b.payload).steps, p);
      } else if a.Function? && b.Function? {
        StacksSound(fuel - 1, a.output, b.output, p, f);
        var u := VisitStacks(fuel - 1, a.output, b.output).steps;
        StacksTriangular(fuel - 1, a.output, b.output, f);
        RestSound(fuel - 1, a.input, b.input, u, p, f);
        var w := VisitStacks(fuel - 1, ApplyStack(u, a.input), ApplyStack(u, b.input)).steps;
        ApplyStackAppend(u, w, a.output);
        ApplyStackAppend(u, w, b.output);
        ApplyFunction(r.steps, a.input, a.output);
        ApplyFunction(r.steps, b.input, b.output);
      } else if a.Generic? {
        BoundTypeIsGood(a, b, p, f);
      } else if b.Generic? {
        TypesSound(fuel - 1, b, a, p, f);
      } else {
        NoStepKeepsFit(p);
      }
    }
  }

  lemma BoundTypeIsGood(a: Type, b: Type, p: Payloads, f: Fragment)
    requires a.Generic? && TypeIn(a, f) && TypeIn(b, f) && NoShortcut(f) && TypeFits(b, p) && BindType(a, b).Ok?
    ensures Good(BindType(a, b).steps, a, b, p)
  {
    if a == b {
      BoundType(a, b, f);
      NoStepKeepsFit(p);
    } else {
      var step := TypeStep(a.n, b);
      BoundType(a, b, f);
      OneStepKeepsFit(step, p);
      BoundTypeIsSound(a, b);
    }
  }

  lemma {:induction false} StacksSound(fuel: nat, a: Stack, b: Stack, p: Payloads, f: Fragment)
    requires StackIn(a, f) && StackIn(b, f) && NoShortcut(f) && CarefulStacks(fuel, a, b) && StackFits(a, p) && StackFits(b, p)
    ensures var r := VisitStacks(fuel, a, b); r.Ok? ==> GoodStacks(r.steps, a, b, p)
    decreases fuel, 0
  {
    var r := VisitStacks(fuel, a, b);
    if r.Ok? {
      if a.StackGeneric? {
        BoundStackIsGood(a, b, p, f);
      } else if b.StackGeneric? {
        StacksSound(fuel - 1, b, a, p, f);
      } else if a.Push? && b.Push? {
        TypesSound(fuel - 1, a.top, b.top, p, f);
        var u := VisitTypes(fuel - 1, a.top, b.top).steps;
        TypesTriangular(fuel - 1, a.top, b.top, f);
        RestSound(fuel - 1, a.base, b.base, u, p, f);
        var w := VisitStacks(fuel - 1, ApplyStack(u, a.base), ApplyStack(u, b.base)).steps;
        ApplyAppend(u, w, a.top);
        ApplyAppend(u, w, b.top);
        ApplyPush(r.steps, a.base, a.top);
        ApplyPush(r.steps, b.base, b.top);
      } else {
        NoStepKeepsFit(p);
      }
    }
  }

  lemma BoundStackIsGood(a: Stack, b: Stack, p: Payloads, f: Fragment)
    requires a.StackGeneric? && StackIn(a, f) && StackIn(b, f) && StackFits(b, p) && BindStack(a, b).Ok?
    ensures GoodStacks(BindStack(a, b).steps, a, b, p)
  {
    StackContainsStackIsOccurs(b, a.n, f);
    AddConstraintsIsIdentity(b, f);
    if a == b {
      NoStepKeepsFit(p);
    } else {
      var step := StackStep(a.n, b);
      assert BindStack(a, b) == Ok([step]);
      OneStepKeepsFit(step, p);
      StepStackAbsent(b, step);
    }
  }

  lemma {:induction false} RestSound(fuel: nat, x: Stack, y: Stack, u: seq<Step>, p: Payloads, f: Fragment)
    requires StackIn(x, f) && StackIn(y, f) && NoShortcut(f) && StepsIn(u, f) && StackFits(x, p) && StackFits(y, p)
    requires Coherent(u, p) && KeepsFit(u, p) && CarefulStacks(fuel, ApplyStack(u, x), ApplyStack(u, y))
    ensures var r := VisitStacks(fuel, ApplyStack(u, x), ApplyStack(u, y)); r.Ok? ==> GoodStacks(u + r.steps, x, y, p)
    decreases fuel, 1
  {
    StaysIn(u, x, f);
    StaysIn(u, y, f);
    StacksSound(fuel, ApplyStack(u, x), ApplyStack(u, y), Applied(p, u), f);
    var r := VisitStacks(fuel, ApplyStack(u, x), ApplyStack(u, y));
    if r.Ok? {
      BothKeepFit(u, r.steps, p);
      ApplyStackAppend(u, r.steps, x);
      ApplyStackAppend(u, r.steps, y);
    }
  }
}
