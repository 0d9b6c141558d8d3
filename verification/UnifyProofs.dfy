/**
 * Termination of the unifier, and the facts about steps and substitutions behind its other properties.
 */
module UnifyProofs {
  import opened StatickTypes
  import opened Unify
  import opened UnifyFragments

  // ----- the fragments are closed, and containment is occurrence -----

  lemma {:induction false} TypeContainsIsOccurs(t: Type, n: nat, f: Fragment)
    requires TypeIn(t, f)
    ensures TypeContains(t, Generic(n, f.cs)) <==> TVar(n) in TypeVars(t)
  {
    match t
    case Channel(_, _, c) => TypeContainsIsOccurs(c, n, f);
    case Function(i, o) => StackContainsIsOccurs(i, n, f); StackContainsIsOccurs(o, n, f);
    case _ =>
  }

  lemma {:induction false} StackContainsIsOccurs(s: Stack, n: nat, f: Fragment)
    requires StackIn(s, f)
    ensures StackContains(s, Generic(n, f.cs)) <==> TVar(n) in StackVars(s)
  {
    match s
    case Push(b, t) => StackContainsIsOccurs(b, n, f); TypeContainsIsOccurs(t, n, f);
    case _ =>
  }

  lemma {:induction false} TypeContainsStackIsOccurs(t: Type, n: nat, f: Fragment)
    requires TypeIn(t, f)
    ensures TypeContainsStack(t, StackGeneric(n, f.ss)) <==> SVar(n) in TypeVars(t)
  {
    match t
    case Channel(_, _, c) => TypeContainsStackIsOccurs(c, n, f);
    case Function(i, o) => StackContainsStackIsOccurs(i, n, f); StackContainsStackIsOccurs(o, n, f);
    case _ =>
  }

  lemma {:induction false} StackContainsStackIsOccurs(s: Stack, n: nat, f: Fragment)
    requires StackIn(s, f)
    ensures StackContainsStack(s, StackGeneric(n, f.ss)) <==> SVar(n) in StackVars(s)
  {
    match s
    case Push(b, t) => StackContainsStackIsOccurs(b, n, f); TypeContainsStackIsOccurs(t, n, f);
    case _ =>
  }

  lemma {:induction false} AddConstraintsIsIdentity(s: Stack, f: Fragment)
    requires StackIn(s, f)
    ensures AddConstraints(s, f.ss) == s
  {
    match s
    case Push(b, _) => AddConstraintsIsIdentity(b, f);
    case _ =>
  }

  // ----- one step: fragment, variables, size -----

  lemma {:induction false} StepTypeFacts(t: Type, step: Step, f: Fragment)
    requires TypeIn(t, f) && StepIn(step, f)
    ensures TypeIn(StepType(t, step), f)
    ensures TypeVars(StepType(t, step)) <= (TypeVars(t) - Target(step)) + StepVars(step)
    ensures step.ChannelStep? ==> TypeSize(StepType(t, step)) == TypeSize(t)
  {
    match t
    case Channel(_, _, c) => StepTypeFacts(c, step, f);
    case Function(i, o) => StepStackFacts(i, step, f); StepStackFacts(o, step, f);
    case _ =>
  }

  lemma {:induction false} StepStackFacts(s: Stack, step: Step, f: Fragment)
    requires StackIn(s, f) && StepIn(step, f)
    ensures StackIn(StepStack(s, step), f)
    ensures StackVars(StepStack(s, step)) <= (StackVars(s) - Target(step)) + StepVars(step)
    ensures step.ChannelStep? ==> StackSize(StepStack(s, step)) == StackSize(s)
  {
    match s
    case Push(b, t) => StepStackFacts(b, step, f); StepTypeFacts(t, step, f);
    case _ =>
  }

  // ----- a triangular list of steps -----

  lemma {:induction false} ApplyStackFacts(steps: seq<Step>, s: Stack, vs: set<Var>, f: Fragment)
    requires StackIn(s, f) && StepsIn(steps, f) && StackVars(s) <= vs && Triangular(steps, vs)
    ensures StackIn(ApplyStack(steps, s), f)
    ensures StackVars(ApplyStack(steps, s)) <= vs - Targets(steps)
    ensures Targets(steps) == {} ==> StackSize(ApplyStack(steps, s)) == StackSize(s)
  {
    if steps != [] {
      StepStackFacts(s, steps[0], f);
      ApplyStackFacts(steps[1..], StepStack(s, steps[0]), vs - Target(steps[0]), f);
    }
  }

  lemma {:induction false} TriangularAppend(u: seq<Step>, w: seq<Step>, vs: set<Var>, ws: set<Var>)
    requires Triangular(u, vs) && Triangular(w, ws) && ws <= vs - Targets(u)
    ensures Triangular(u + w, vs)
    ensures Targets(u + w) == Targets(u) + Targets(w)
  {
    if u == [] {
      assert u + w == w;
      TriangularWiden(w, ws, vs);
    } else {
      assert (u + w)[1..] == u[1..] + w;
      TriangularAppend(u[1..], w, vs - Target(u[0]), ws);
    }
  }

  lemma {:induction false} TriangularWiden(u: seq<Step>, vs: set<Var>, ws: set<Var>)
    requires Triangular(u, vs) && vs <= ws
    ensures Triangular(u, ws)
  {
    if u != [] {
      TriangularWiden(u[1..], vs - Target(u[0]), ws - Target(u[0]));
    }
  }

  lemma {:induction false} TargetsWithin(u: seq<Step>, vs: set<Var>)
    requires Triangular(u, vs)
    ensures Targets(u) <= vs
  {
    if u != [] {
      TargetsWithin(u[1..], vs - Target(u[0]));
    }
  }

  lemma {:induction false} ApplyAppend(u: seq<Step>, w: seq<Step>, t: Type)
    ensures ApplyType(u + w, t) == ApplyType(w, ApplyType(u, t))
  {
    if u == [] {
      assert u + w == w;
    } else {
      assert (u + w)[1..] == u[1..] + w;
      ApplyAppend(u[1..], w, StepType(t, u[0]));
    }
  }

  lemma {:induction false} ApplyStackAppend(u: seq<Step>, w: seq<Step>, s: Stack)
    ensures ApplyStack(u + w, s) == ApplyStack(w, ApplyStack(u, s))
  {
    if u == [] {
      assert u + w == w;
    } else {
      assert (u + w)[1..] == u[1..] + w;
      ApplyStackAppend(u[1..], w, StepStack(s, u[0]));
    }
  }

  lemma UsesTriangular(a: ChannelUse, b: ChannelUse, vs: set<Var>, f: Fragment)
    requires UseIn(a, f) && UseIn(b, f)
    ensures var r := VisitChannelUse(a, b); r.Ok? ==> StepsIn(r.steps, f) && Triangular(r.steps, vs) && Targets(r.steps) == {}
  {
  }

  lemma BoundTypeTriangular(a: Type, b: Type, f: Fragment)
    requires a.Generic? && TypeIn(a, f) && TypeIn(b, f)
    ensures var r := BindType(a, b); r.Ok? ==> StepsIn(r.steps, f) && Triangular(r.steps, TypeVars(a) + TypeVars(b))
  {
    TypeContainsIsOccurs(b, a.n, f);
  }

  /** What a successful run returns, whatever the constraints and channel uses. */
  lemma {:induction false} TypesTriangular(fuel: nat, a: Type, b: Type, f: Fragment)
    requires TypeIn(a, f) && TypeIn(b, f)
    ensures var r := VisitTypes(fuel, a, b);
            r.Ok? ==> StepsIn(r.steps, f) && Triangular(r.steps, TypeVars(a) + TypeVars(b))
  {
    var r := VisitTypes(fuel, a, b);
    if r.Ok? {
      if a.Channel? && b.Channel? {
        TypesTriangular(fuel - 1, a.payload, b.payload, f);
        UsesTriangular(a.use, b.use, TypeVars(a) + TypeVars(b), f);
        TriangularAppend(VisitChannelUse(a.use, b.use).steps, VisitTypes(fuel - 1, a.payload, b.payload).steps,
                         TypeVars(a) + TypeVars(b), TypeVars(a.payload) + TypeVars(b.payload));
      } else if a.Function? && b.Function? {
        var outputs := VisitStacks(fuel - 1, a.output, b.output).steps;
        StacksTriangular(fuel - 1, a.output, b.output, f);
        StacksTriangularRest(fuel - 1, a.input, b.input, outputs, StackVars(a.output) + StackVars(b.output), f);
        assert StackVars(a.output) + StackVars(b.output) + StackVars(a.input) + StackVars(b.input) == TypeVars(a) + TypeVars(b);
      } else if a.Generic? {
        BoundTypeTriangular(a, b, f);
      } else if b.Generic? {
        TypesTriangular(fuel - 1, b, a, f);
        assert TypeVars(a) + TypeVars(b) == TypeVars(b) + TypeVars(a);
      }
    }
  }

  lemma {:induction false} StacksTriangular(fuel: nat, a: Stack, b: Stack, f: Fragment)
    requires StackIn(a, f) && StackIn(b, f)
    ensures var r := VisitStacks(fuel, a, b);
            r.Ok? ==> StepsIn(r.steps, f) && Triangular(r.steps, StackVars(a) + StackVars(b))
    decreases fuel, 0
  {
    if fuel != 0 {
      if a.StackGeneric? {
        StackContainsStackIsOccurs(b, a.n, f);
        AddConstraintsIsIdentity(b, f);
      } else if b.StackGeneric? {
        StacksTriangular(fuel - 1, b, a, f);
        assert StackVars(a) + StackVars(b) == StackVars(b) + StackVars(a);
      } else if a.Push? && b.Push? {
        if VisitStacks(fuel, a, b).Ok? {
          var tops := VisitTypes(fuel - 1, a.top, b.top).steps;
          TypesTriangular(fuel - 1, a.top, b.top, f);
          StacksTriangularRest(fuel - 1, a.base, b.base, tops, TypeVars(a.top) + TypeVars(b.top), f);
          assert TypeVars(a.top) + TypeVars(b.top) + StackVars(a.base) + StackVars(b.base) == StackVars(a) + StackVars(b);
        }
      }
    }
  }

  /** The shared second half of the function and push cases. */
  lemma {:induction false} StacksTriangularRest(
    fuel: nat, x: Stack, y: Stack, first: seq<Step>, vs: set<Var>, f: Fragment)
    requires StackIn(x, f) && StackIn(y, f) && StepsIn(first, f) && Triangular(first, vs)
    ensures var r := VisitStacks(fuel, ApplyStack(first, x), ApplyStack(first, y));
            r.Ok? ==> StepsIn(first + r.steps, f) &&
                      Triangular(first + r.steps, vs + StackVars(x) + StackVars(y))
    decreases fuel, 1
  {
    var ws := vs + StackVars(x) + StackVars(y);
    TriangularWiden(first, vs, ws);
    ApplyStackFacts(first, x, ws, f);
    ApplyStackFacts(first, y, ws, f);
    StacksTriangular(fuel, ApplyStack(first, x), ApplyStack(first, y), f);
    var r := VisitStacks(fuel, ApplyStack(first, x), ApplyStack(first, y));
    if r.Ok? {
      TriangularAppend(first, r.steps, ws,
                       StackVars(ApplyStack(first, x)) + StackVars(ApplyStack(first, y)));
    }
  }

  // ----- termination -----

  /** More budget never changes an answer. */
  lemma {:induction false} TypesFuelIrrelevant(fuel: nat, more: nat, a: Type, b: Type)
    requires fuel <= more && VisitTypes(fuel, a, b) != OutOfFuel
    ensures VisitTypes(more, a, b) == VisitTypes(fuel, a, b)
  {
    if a.Channel? && b.Channel? {
      if VisitChannelUse(a.use, b.use).Ok? && a.direction == b.direction {
        TypesFuelIrrelevant(fuel - 1, more - 1, a.payload, b.payload);
      }
    } else if a.Function? && b.Function? {
      StacksFuelIrrelevant(fuel - 1, more - 1, a.output, b.output);
      var outputs := VisitStacks(fuel - 1, a.output, b.output);
      if outputs.Ok? {
        StacksFuelIrrelevant(fuel - 1, more - 1, ApplyStack(outputs.steps, a.input), ApplyStack(outputs.steps, b.input));
      }
    } else if a.Generic? {
    } else if b.Generic? {
      TypesFuelIrrelevant(fuel - 1, more - 1, b, a);
    }
  }

  lemma {:induction false} StacksFuelIrrelevant(fuel: nat, more: nat, a: Stack, b: Stack)
    requires fuel <= more && VisitStacks(fuel, a, b) != OutOfFuel
    ensures VisitStacks(more, a, b) == VisitStacks(fuel, a, b)
  {
    if a.StackGeneric? {
    } else if b.StackGeneric? {
      StacksFuelIrrelevant(fuel - 1, more - 1, b, a);
    } else if a.Push? && b.Push? {
      TypesFuelIrrelevant(fuel - 1, more - 1, a.top, b.top);
      var tops := VisitTypes(fuel - 1, a.top, b.top);
      if tops.Ok? {
        StacksFuelIrrelevant(fuel - 1, more - 1, ApplyStack(tops.steps, a.base), ApplyStack(tops.steps, b.base));
      }
    }
  }

  lemma FunctionConverges(a: Type, b: Type, first: nat, rest: nat)
    requires a.Function? && b.Function?
    requires var u := VisitStacks(first, a.output, b.output);
             && u != OutOfFuel
             && (u.Ok? ==> VisitStacks(rest, ApplyStack(u.steps, a.input), ApplyStack(u.steps, b.input)) != OutOfFuel)
    ensures VisitTypes(first + rest + 1, a, b) != OutOfFuel
  {
    var u := VisitStacks(first, a.output, b.output);
    StacksFuelIrrelevant(first, first + rest, a.output, b.output);
    if u.Ok? {
      StacksFuelIrrelevant(rest, first + rest, ApplyStack(u.steps, a.input), ApplyStack(u.steps, b.input));
    }
  }

  lemma PushConverges(a: Stack, b: Stack, first: nat, rest: nat)
    requires a.Push? && b.Push?
    requires var u := VisitTypes(first, a.top, b.top);
             && u != OutOfFuel
             && (u.Ok? ==> VisitStacks(rest, ApplyStack(u.steps, a.base), ApplyStack(u.steps, b.base)) != OutOfFuel)
    ensures VisitStacks(first + rest + 1, a, b) != OutOfFuel
  {
    var u := VisitTypes(first, a.top, b.top);
    TypesFuelIrrelevant(first, first + rest, a.top, b.top);
    if u.Ok? {
      StacksFuelIrrelevant(rest, first + rest, ApplyStack(u.steps, a.base), ApplyStack(u.steps, b.base));
    }
  }

  /**
   * Some budget suffices. The recursion is bounded by the variables the terms are drawn from and,
   * while those stay, by the size of the terms; swapping the arguments is free.
   */
  lemma {:induction false} TypesConverge(a: Type, b: Type, vs: set<Var>, size: nat, f: Fragment)
    returns (fuel: nat)
    requires TypeIn(a, f) && TypeIn(b, f)
    requires TypeVars(a) <= vs && TypeVars(b) <= vs && TypeSize(a) + TypeSize(b) <= size
    ensures VisitTypes(fuel, a, b) != OutOfFuel
    decreases |vs|, size, if a.Generic? then 0 else 1
  {
    if a.Channel? && b.Channel? {
      var rest := TypesConverge(a.payload, b.payload, vs, size - 1, f);
      fuel := rest + 1;
    } else if a.Function? && b.Function? {
      var first := StacksConverge(a.output, b.output, vs, size - 1, f);
      var u := VisitStacks(first, a.output, b.output);
      var rest := 0;
      if u.Ok? {
        StacksTriangular(first, a.output, b.output, f);
        TriangularWiden(u.steps, StackVars(a.output) + StackVars(b.output), vs);
        rest := RestConverges(u.steps, a.input, b.input, vs, size - 1, f);
      }
      FunctionConverges(a, b, first, rest);
      fuel := first + rest + 1;
    } else if b.Generic? && !a.Generic? {
      var rest := TypesConverge(b, a, vs, size, f);
      fuel := rest + 1;
    } else {
      fuel := 1;
    }
  }

  lemma {:induction false} StacksConverge(a: Stack, b: Stack, vs: set<Var>, size: nat, f: Fragment)
    returns (fuel: nat)
    requires StackIn(a, f) && StackIn(b, f)
    requires StackVars(a) <= vs && StackVars(b) <= vs && StackSize(a) + StackSize(b) <= size
    ensures VisitStacks(fuel, a, b) != OutOfFuel
    decreases |vs|, size, if a.StackGeneric? then 0 else 1
  {
    if b.StackGeneric? && !a.StackGeneric? {
      var rest := StacksConverge(b, a, vs, size, f);
      fuel := rest + 1;
    } else if a.Push? && b.Push? {
      var first := TypesConverge(a.top, b.top, vs, size - 1, f);
      var u := VisitTypes(first, a.top, b.top);
      var rest := 0;
      if u.Ok? {
        TypesTriangular(first, a.top, b.top, f);
        TriangularWiden(u.steps, TypeVars(a.top) + TypeVars(b.top), vs);
        rest := RestConverges(u.steps, a.base, b.base, vs, size - 1, f);
      }
      PushConverges(a, b, first, rest);
      fuel := first + rest + 1;
    } else {
      fuel := 1;
    }
  }

  /** After the first part either a variable is gone, or only channel uses changed. */
  lemma {:induction false} RestConverges(
    steps: seq<Step>, x: Stack, y: Stack, vs: set<Var>, size: nat, f: Fragment) returns (fuel: nat)
    requires StackIn(x, f) && StackIn(y, f) && StepsIn(steps, f) && Triangular(steps, vs)
    requires StackVars(x) <= vs && StackVars(y) <= vs && StackSize(x) + StackSize(y) <= size
    ensures VisitStacks(fuel, ApplyStack(steps, x), ApplyStack(steps, y)) != OutOfFuel
    decreases |vs|, size, 2
  {
    ApplyStackFacts(steps, x, vs, f);
    ApplyStackFacts(steps, y, vs, f);
    var x', y' := ApplyStack(steps, x), ApplyStack(steps, y);
    if Targets(steps) == {} {
      fuel := StacksConverge(x', y', vs, size, f);
    } else {
      TargetsWithin(steps, vs);
      ProperSubsetIsSmaller(vs - Targets(steps), vs);
      fuel := StacksConverge(x', y', vs - Targets(steps), StackSize(x') + StackSize(y'), f);
    }
  }

  lemma ProperSubsetIsSmaller<T>(a: set<T>, b: set<T>)
    requires a < b
    ensures |a| < |b|
  {
    assert b == a + (b - a);
  }

  // ----- applying steps to terms -----

  lemma {:induction false} StepTypeAbsent(t: Type, step: Step)
    requires !step.ChannelStep? && Target(step) !! TypeVars(t)
    ensures StepType(t, step) == t
  {
    match t
    case Channel(_, _, c) => StepTypeAbsent(c, step);
    case Function(i, o) => StepStackAbsent(i, step); StepStackAbsent(o, step);
    case _ =>
  }

  lemma {:induction false} StepStackAbsent(s: Stack, step: Step)
    requires !step.ChannelStep? && Target(step) !! StackVars(s)
    ensures StepStack(s, step) == s
  {
    match s
    case Push(b, t) => StepStackAbsent(b, step); StepTypeAbsent(t, step);
    case _ =>
  }

  lemma {:induction false} ApplyChannel(steps: seq<Step>, u: ChannelUse, d: Direction, c: Type)
    ensures ApplyType(steps, Channel(u, d, c)) == Channel(ApplyUse(steps, u), d, ApplyType(steps, c))
  {
    if steps != [] {
      ApplyChannel(steps[1..], StepUse(u, steps[0]), d, StepType(c, steps[0]));
    }
  }

  lemma {:induction false} ApplyFunction(steps: seq<Step>, i: Stack, o: Stack)
    ensures ApplyType(steps, Function(i, o)) == Function(ApplyStack(steps, i), ApplyStack(steps, o))
  {
    if steps != [] {
      ApplyFunction(steps[1..], StepStack(i, steps[0]), StepStack(o, steps[0]));
    }
  }

  lemma {:induction false} ApplyPush(steps: seq<Step>, b: Stack, t: Type)
    ensures ApplyStack(steps, Push(b, t)) == Push(ApplyStack(steps, b), ApplyType(steps, t))
  {
    if steps != [] {
      ApplyPush(steps[1..], StepStack(b, steps[0]), StepType(t, steps[0]));
    }
  }

  lemma BoundTypeIsSound(a: Type, b: Type)
    requires a.Generic? && TVar(a.n) !in TypeVars(b)
    requires b.Generic? ==> b.constraints == a.constraints
    ensures ApplyType([TypeStep(a.n, b)], a) == ApplyType([TypeStep(a.n, b)], b)
  {
    StepTypeAbsent(b, TypeStep(a.n, b));
  }

  // ----- substitutions and steps -----

  /** A substitution that solves a step does not see it. */
  lemma {:induction false} SolvedStepType(s: Subst, step: Step, t: Type)
    requires Solves(s, step)
    ensures SubType(s, StepType(t, step)) == SubType(s, t)
  {
    match t
    case Channel(_, _, c) => SolvedStepType(s, step, c);
    case Function(i, o) => SolvedStepStack(s, step, i); SolvedStepStack(s, step, o);
    case _ =>
  }

  lemma {:induction false} SolvedStepStack(s: Subst, step: Step, k: Stack)
    requires Solves(s, step)
    ensures SubStack(s, StepStack(k, step)) == SubStack(s, k)
  {
    match k
    case Push(b, t) => SolvedStepStack(s, step, b); SolvedStepType(s, step, t);
    case _ =>
  }

  lemma {:induction false} SolvedStepsType(s: Subst, steps: seq<Step>, t: Type)
    requires SolvesAll(s, steps)
    ensures SubType(s, ApplyType(steps, t)) == SubType(s, t)
  {
    if steps != [] {
      SolvedStepType(s, steps[0], t);
      SolvedStepsType(s, steps[1..], StepType(t, steps[0]));
    }
  }

  lemma {:induction false} SolvedStepsStack(s: Subst, steps: seq<Step>, k: Stack)
    requires SolvesAll(s, steps)
    ensures SubStack(s, ApplyStack(steps, k)) == SubStack(s, k)
  {
    if steps != [] {
      SolvedStepStack(s, steps[0], k);
      SolvedStepsStack(s, steps[1..], StepStack(k, steps[0]));
    }
  }

  function VarSize(s: Subst, v: Var): nat {
    match v
    case TVar(n) => TypeSize(s.types(n))
    case SVar(n) => StackSize(s.stacks(n))
  }

  /** The occurs check is right: a term is bigger than any variable inside it. */
  lemma {:induction false} OccursIsBiggerType(s: Subst, v: Var, t: Type)
    requires v in TypeVars(t)
    ensures TypeSize(SubType(s, t)) >= VarSize(s, v)
    ensures !t.Generic? ==> TypeSize(SubType(s, t)) > VarSize(s, v)
  {
    match t
    case Channel(_, _, c) => OccursIsBiggerType(s, v, c);
    case Function(i, o) =>
      if v in StackVars(i) { OccursIsBiggerStack(s, v, i); } else { OccursIsBiggerStack(s, v, o); }
    case _ =>
  }

  lemma {:induction false} OccursIsBiggerStack(s: Subst, v: Var, k: Stack)
    requires v in StackVars(k)
    ensures StackSize(SubStack(s, k)) >= VarSize(s, v)
    ensures !k.StackGeneric? ==> StackSize(SubStack(s, k)) > VarSize(s, v)
  {
    match k
    case Push(b, t) =>
      if v in StackVars(b) { OccursIsBiggerStack(s, v, b); } else { OccursIsBiggerType(s, v, t); }
    case _ =>
  }

  lemma {:induction false} AllowBottomIsSatisfied(k: Stack)
    ensures SatisfiesStackConstraint(k, AllowBottom)
  {
    match k
    case Push(b, _) => AllowBottomIsSatisfied(b);
    case _ =>
  }
}
