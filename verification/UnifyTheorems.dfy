/**
 * The main results about unification, and the exact limits of the code where it stops being
 * first-order unification.
 */
module UnifyTheorems {
  import opened StatickTypes
  import opened Unify
  import opened UnifyFragments
  import opened UnifyProofs
  import opened UnifyChannels

  /** Whatever the uniform constraint sets and whatever the channel uses, unification ends. */
  lemma Termination(a: Type, b: Type, f: Fragment)
    requires TypeIn(a, f) && TypeIn(b, f)
    ensures exists fuel: nat :: VisitTypes(fuel, a, b) != OutOfFuel
    ensures forall m: nat, n: nat :: VisitTypes(m, a, b) != OutOfFuel && VisitTypes(n, a, b) != OutOfFuel
                           ==> VisitTypes(m, a, b) == VisitTypes(n, a, b)
  {
    var fuel := TypesConverge(a, b, TypeVars(a) + TypeVars(b), TypeSize(a) + TypeSize(b), f);
    assert VisitTypes(fuel, a, b) != OutOfFuel;
    forall m: nat, n: nat | VisitTypes(m, a, b) != OutOfFuel && VisitTypes(n, a, b) != OutOfFuel
      ensures VisitTypes(m, a, b) == VisitTypes(n, a, b)
    {
      TypesFuelIrrelevant(if m <= n then m else n, if m <= n then n else m, a, b);
    }
  }

  lemma StackTermination(a: Stack, b: Stack, f: Fragment)
    requires StackIn(a, f) && StackIn(b, f)
    ensures exists fuel: nat :: VisitStacks(fuel, a, b) != OutOfFuel
  {
    var fuel := StacksConverge(a, b, StackVars(a) + StackVars(b), StackSize(a) + StackSize(b), f);
    assert VisitStacks(fuel, a, b) != OutOfFuel;
  }

  ghost predicate Unifies(s: Subst, a: Type, b: Type) {
    SubType(s, a) == SubType(s, b)
  }

  ghost predicate UnifiesStacks(s: Subst, a: Stack, b: Stack) {
    SubStack(s, a) == SubStack(s, b)
  }

  /** The step list, read as a substitution. */
  ghost function AsSubst(steps: seq<Step>, f: Fragment): Subst {
    Subst((n: nat) => ApplyType(steps, Generic(n, f.cs)),
          (n: nat) => ApplyStack(steps, StackGeneric(n, f.ss)),
          (n: nat) => ApplyUse(steps, Variable(n, 0)))
  }

  lemma {:induction false} AsSubstType(steps: seq<Step>, t: Type, f: Fragment)
    requires TypeIn(t, f)
    ensures SubType(AsSubst(steps, f), t) == ApplyType(steps, t)
  {
    match t
    case Channel(u, d, c) =>
      AsSubstType(steps, c, f);
      ApplyChannel(steps, u, d, c);
      if u.Variable? { Shifts(steps, u.name, 0, u.offset); } else { Fixed(steps, u); }
    case Function(i, o) =>
      AsSubstStack(steps, i, f);
      AsSubstStack(steps, o, f);
      ApplyFunction(steps, i, o);
    case Generic(_, _) =>
    case _ => ApplyConstant(steps, t);
  }

  lemma {:induction false} AsSubstStack(steps: seq<Step>, k: Stack, f: Fragment)
    requires StackIn(k, f)
    ensures SubStack(AsSubst(steps, f), k) == ApplyStack(steps, k)
  {
    match k
    case Push(b, t) =>
      AsSubstStack(steps, b, f);
      AsSubstType(steps, t, f);
      ApplyPush(steps, b, t);
    case StackGeneric(_, _) =>
    case Bottom => ApplyBottom(steps);
  }

  lemma {:induction false} ApplyConstant(steps: seq<Step>, t: Type)
    requires t.Boolean? || t.Integer? || t.Counter? || t.Void?
    ensures ApplyType(steps, t) == t
  {
    if steps != [] { ApplyConstant(steps[1..], t); }
  }

  lemma {:induction false} ApplyBottom(steps: seq<Step>)
    ensures ApplyStack(steps, Bottom) == Bottom
  {
    if steps != [] { ApplyBottom(steps[1..]); }
  }

  /** A run on two types decides whether they have a unifier, and what it returns is most general. */
  ghost predicate Principal(a: Type, b: Type, r: Outcome) {
    && (r.Ok? <==> exists s: Subst :: Unifies(s, a, b))
    && (r.Ok? ==>
         && ApplyType(r.steps, a) == ApplyType(r.steps, b)
         && (forall s: Subst, t: Type :: Unifies(s, a, b) ==> SubType(s, ApplyType(r.steps, t)) == SubType(s, t))
         && (forall s: Subst, k: Stack :: Unifies(s, a, b) ==> SubStack(s, ApplyStack(r.steps, k)) == SubStack(s, k)))
  }

  ghost predicate PrincipalStacks(a: Stack, b: Stack, r: Outcome) {
    && (r.Ok? <==> exists s: Subst :: UnifiesStacks(s, a, b))
    && (r.Ok? ==>
         && ApplyStack(r.steps, a) == ApplyStack(r.steps, b)
         && (forall s: Subst, t: Type :: UnifiesStacks(s, a, b) ==> SubType(s, ApplyType(r.steps, t)) == SubType(s, t))
         && (forall s: Subst, k: Stack :: UnifiesStacks(s, a, b) ==> SubStack(s, ApplyStack(r.steps, k)) == SubStack(s, k)))
  }

  /** In both types together each channel variable stands with one payload only. */
  ghost predicate OnePayload(a: Type, b: Type) {
    exists p: Payloads :: TypeFits(a, p) && TypeFits(b, p)
  }

  ghost predicate OneStackPayload(a: Stack, b: Stack) {
    exists p: Payloads :: StackFits(a, p) && StackFits(b, p)
  }

  /** Channel variables with offsets too, as long as the run ignores none. */
  lemma PrincipalRun(a: Type, b: Type, f: Fragment, fuel: nat)
    requires TypeIn(a, f) && TypeIn(b, f) && Unconstrained(f) && OnePayload(a, b) && CarefulTypes(fuel, a, b)
    requires VisitTypes(fuel, a, b) != OutOfFuel
    ensures Principal(a, b, VisitTypes(fuel, a, b))
  {
    var r := VisitTypes(fuel, a, b);
    forall s: Subst | Unifies(s, a, b) ensures r.Ok? && SolvesAll(s, r.steps) {
      TypesEquivalent(fuel, a, b, s, f);
    }
    if r.Ok? {
      var p: Payloads :| TypeFits(a, p) && TypeFits(b, p);
      TypesSound(fuel, a, b, p, f);
      AsSubstType(r.steps, a, f);
      AsSubstType(r.steps, b, f);
      assert Unifies(AsSubst(r.steps, f), a, b);
      forall s: Subst, t: Type | Unifies(s, a, b) ensures SubType(s, ApplyType(r.steps, t)) == SubType(s, t) {
        SolvedStepsType(s, r.steps, t);
      }
      forall s: Subst, k: Stack | Unifies(s, a, b) ensures SubStack(s, ApplyStack(r.steps, k)) == SubStack(s, k) {
        SolvedStepsStack(s, r.steps, k);
      }
    }
  }

  lemma PrincipalStackRun(a: Stack, b: Stack, f: Fragment, fuel: nat)
    requires StackIn(a, f) && StackIn(b, f) && Unconstrained(f) && OneStackPayload(a, b) && CarefulStacks(fuel, a, b)
    requires VisitStacks(fuel, a, b) != OutOfFuel
    ensures PrincipalStacks(a, b, VisitStacks(fuel, a, b))
  {
    var r := VisitStacks(fuel, a, b);
    forall s: Subst | UnifiesStacks(s, a, b) ensures r.Ok? && SolvesAll(s, r.steps) {
      StacksEquivalent(fuel, a, b, s, f);
    }
    if r.Ok? {
      var p: Payloads :| StackFits(a, p) && StackFits(b, p);
      StacksSound(fuel, a, b, p, f);
      AsSubstStack(r.steps, a, f);
      AsSubstStack(r.steps, b, f);
      assert UnifiesStacks(AsSubst(r.steps, f), a, b);
      forall s: Subst, t: Type | UnifiesStacks(s, a, b) ensures SubType(s, ApplyType(r.steps, t)) == SubType(s, t) {
        SolvedStepsType(s, r.steps, t);
      }
      forall s: Subst, k: Stack | UnifiesStacks(s, a, b) ensures SubStack(s, ApplyStack(r.steps, k)) == SubStack(s, k) {
        SolvedStepsStack(s, r.steps, k);
      }
    }
  }

  /** Without channel variables every assignment of payloads fits. */
  lemma {:induction false} FixedUsesFit(t: Type, f: Fragment, p: Payloads)
    requires TypeIn(t, f) && f.uses == NoVariables
    ensures TypeFits(t, p)
  {
    match t
    case Channel(_, _, c) => FixedUsesFit(c, f, p);
    case Function(i, o) => FixedStackUsesFit(i, f, p); FixedStackUsesFit(o, f, p);
    case _ =>
  }

  lemma {:induction false} FixedStackUsesFit(k: Stack, f: Fragment, p: Payloads)
    requires StackIn(k, f) && f.uses == NoVariables
    ensures StackFits(k, p)
  {
    match k
    case Push(b, t) => FixedStackUsesFit(b, f, p); FixedUsesFit(t, f, p);
    case _ =>
  }

  lemma NoVariablesNoHarm(a: Type, b: Type, f: Fragment, fuel: nat)
    requires TypeIn(a, f) && TypeIn(b, f) && f.uses == NoVariables
    ensures CarefulTypes(fuel, a, b) && OnePayload(a, b)
  {
    ZeroOffsetsAreCareful(fuel, a, b, f);
    var p: Payloads := _ => Void;
    FixedUsesFit(a, f, p);
    FixedUsesFit(b, f, p);
  }

  /**
   * On the first-order fragments, with channel variables if each stands with one payload, unification
   * of types decides unifiability, and what it returns is a most general unifier: every unifier
   * absorbs it.
   */
  lemma PrincipalUnifier(a: Type, b: Type, f: Fragment, fuel: nat)
    requires TypeIn(a, f) && TypeIn(b, f) && FirstOrder(f) && (f.uses == ZeroOffsets ==> OnePayload(a, b))
    requires VisitTypes(fuel, a, b) != OutOfFuel
    ensures Principal(a, b, VisitTypes(fuel, a, b))
  {
    ZeroOffsetsAreCareful(fuel, a, b, f);
    if f.uses == NoVariables { NoVariablesNoHarm(a, b, f, fuel); }
    PrincipalRun(a, b, f, fuel);
  }

  lemma PrincipalStackUnifier(a: Stack, b: Stack, f: Fragment, fuel: nat)
    requires StackIn(a, f) && StackIn(b, f) && FirstOrder(f) && (f.uses == ZeroOffsets ==> OneStackPayload(a, b))
    requires VisitStacks(fuel, a, b) != OutOfFuel
    ensures PrincipalStacks(a, b, VisitStacks(fuel, a, b))
  {
    ZeroOffsetStacks(fuel, a, b, f);
    if f.uses == NoVariables {
      var p: Payloads := _ => Void;
      FixedStackUsesFit(a, f, p);
      FixedStackUsesFit(b, f, p);
    }
    PrincipalStackRun(a, b, f, fuel);
  }

  // ----- what an error says -----

  /** The error names two terms that no substitution makes equal. */
  ghost predicate Clash(e: TypeError) {
    match e
    case NonUnifiableTypes(x, y) => forall s: Subst :: !Unifies(s, x, y)
    case NonUnifiableStacks(x, y) => forall s: Subst :: !UnifiesStacks(s, x, y)
    case NonUnifiableChannelUses(x, y) => forall s: Subst :: SubUse(s, x) != SubUse(s, y)
    case _ => false
  }

  /** Of channel uses a variable is blamed first. */
  lemma UsesAreBlamed(a: ChannelUse, b: ChannelUse)
    requires VisitChannelUse(a, b).Err?
    ensures VisitChannelUse(a, b).error == if b.Variable? then NonUnifiableChannelUses(b, a) else NonUnifiableChannelUses(a, b)
    ensures !(a.Variable? && b.Variable?)
  {
  }

  /** Types of different make are blamed as they stand, in the order they were given; and stacks. */
  lemma DifferentMakesClash(fuel: nat, a: Type, b: Type, p: Stack, q: Stack)
    requires fuel > 0 && !a.Generic? && !b.Generic? && !(a.Function? && b.Function?)
    requires a.Channel? && b.Channel? ==> a.direction != b.direction && VisitChannelUse(a.use, b.use).Ok?
    requires !p.StackGeneric? && !q.StackGeneric? && !(p.Push? && q.Push?)
    ensures VisitTypes(fuel, a, b) == if a == b then Ok([]) else Err(NonUnifiableTypes(a, b))
    ensures VisitStacks(fuel, p, q) == if p == q then Ok([]) else Err(NonUnifiableStacks(p, q))
  {
  }

  lemma {:induction false} TypeErrorsClash(fuel: nat, a: Type, b: Type, f: Fragment)
    requires TypeIn(a, f) && TypeIn(b, f) && Unconstrained(f) && CarefulTypes(fuel, a, b) && VisitTypes(fuel, a, b).Err?
    ensures Clash(VisitTypes(fuel, a, b).error)
    decreases fuel, 0
  {
    var e := VisitTypes(fuel, a, b).error;
    if a.Channel? && b.Channel? && a.direction == b.direction && VisitChannelUse(a.use, b.use).Ok? {
      TypeErrorsClash(fuel - 1, a.payload, b.payload, f);
    } else if a.Channel? && b.Channel? && VisitChannelUse(a.use, b.use).Err? {
      ChannelUseExactly(a.use, b.use);
    } else if a.Function? && b.Function? {
      var outputs := VisitStacks(fuel - 1, a.output, b.output);
      if outputs.Err? {
        StackErrorsClash(fuel - 1, a.output, b.output, f);
      } else {
        StacksTriangular(fuel - 1, a.output, b.output, f);
        StaysIn(outputs.steps, a.input, f);
        StaysIn(outputs.steps, b.input, f);
        StackErrorsClash(fuel - 1, ApplyStack(outputs.steps, a.input), ApplyStack(outputs.steps, b.input), f);
      }
    } else if !a.Generic? && b.Generic? {
      TypeErrorsClash(fuel - 1, b, a, f);
    } else {
      forall s: Subst ensures !Unifies(s, a, b) { TypesEquivalent(fuel, a, b, s, f); }
      if a.Generic? { assert Missing(a.constraints, b) == {}; }
    }
  }

  /** Where no constraint can refuse, a failure blames two parts that really have no unifier. */
  lemma {:induction false} StackErrorsClash(fuel: nat, a: Stack, b: Stack, f: Fragment)
    requires StackIn(a, f) && StackIn(b, f) && Unconstrained(f) && CarefulStacks(fuel, a, b) && VisitStacks(fuel, a, b).Err?
    ensures Clash(VisitStacks(fuel, a, b).error)
    decreases fuel, 0
  {
    if !a.StackGeneric? && b.StackGeneric? {
      StackErrorsClash(fuel - 1, b, a, f);
    } else if a.Push? && b.Push? {
      var tops := VisitTypes(fuel - 1, a.top, b.top);
      if tops.Err? {
        TypeErrorsClash(fuel - 1, a.top, b.top, f);
      } else {
        TypesTriangular(fuel - 1, a.top, b.top, f);
        StaysIn(tops.steps, a.base, f);
        StaysIn(tops.steps, b.base, f);
        StackErrorsClash(fuel - 1, ApplyStack(tops.steps, a.base), ApplyStack(tops.steps, b.base), f);
      }
    } else {
      forall s: Subst ensures !UnifiesStacks(s, a, b) { StacksEquivalent(fuel, a, b, s, f); }
      if a.StackGeneric? {
        AllowBottomIsSatisfied(b);
        assert MissingStack(a.stackConstraints, b) == {};
      }
    }
  }

  /**
   * However channel variables stand: a run that ignores no offset makes its arguments equal exactly
   * when its steps, applied in order, satisfy each of them as an equation.
   */
  lemma SoundExactly(a: Type, b: Type, f: Fragment, fuel: nat)
    requires TypeIn(a, f) && TypeIn(b, f) && NoShortcut(f) && CarefulTypes(fuel, a, b) && VisitTypes(fuel, a, b).Ok?
    ensures var u := VisitTypes(fuel, a, b).steps;
            ApplyType(u, a) == ApplyType(u, b) <==> SolvesAll(AsSubst(u, f), u)
  {
    var u := VisitTypes(fuel, a, b).steps;
    TypesEquivalent(fuel, a, b, AsSubst(u, f), f);
    AsSubstType(u, a, f);
    AsSubstType(u, b, f);
  }

  /**
   * With constraints: any uniform sets, without the shortcut for `Droppable`. A run that succeeds
   * still unifies, and still most generally; only the refusals are no longer about unifiability alone.
   */
  lemma ConstrainedUnifier(a: Type, b: Type, f: Fragment, fuel: nat, s: Subst, t: Type)
    requires TypeIn(a, f) && TypeIn(b, f) && VisitTypes(fuel, a, b).Ok?
    requires f.uses == NoVariables || (Droppable !in f.cs && OnePayload(a, b) && CarefulTypes(fuel, a, b))
    ensures var u := VisitTypes(fuel, a, b).steps;
            && ApplyType(u, a) == ApplyType(u, b)
            && (Unifies(s, a, b) ==> SubType(s, ApplyType(u, t)) == SubType(s, t))
  {
    var u := VisitTypes(fuel, a, b).steps;
    if f.uses == NoVariables {
      NoVariablesNoHarm(a, b, f, fuel);
    }
    var p: Payloads :| TypeFits(a, p) && TypeFits(b, p);
    TypesSound(fuel, a, b, p, f);
    if Unifies(s, a, b) {
      TypesEquivalent(fuel, a, b, s, f);
      SolvedStepsType(s, u, t);
    }
  }

  /** Applying what unification returned a second time changes nothing. */
  lemma Idempotent(a: Type, b: Type, f: Fragment, fuel: nat, t: Type)
    requires TypeIn(a, f) && TypeIn(b, f) && FirstOrder(f) && (f.uses == ZeroOffsets ==> OnePayload(a, b))
    requires VisitTypes(fuel, a, b).Ok? && TypeIn(t, f)
    ensures var u := VisitTypes(fuel, a, b).steps;
            ApplyType(u, ApplyType(u, t)) == ApplyType(u, t)
  {
    var u := VisitTypes(fuel, a, b).steps;
    PrincipalUnifier(a, b, f, fuel);
    AsSubstType(u, a, f);
    AsSubstType(u, b, f);
    assert Unifies(AsSubst(u, f), a, b);
    TypesTriangular(fuel, a, b, f);
    ApplyTypeStaysIn(u, t, f);
    AsSubstType(u, t, f);
    AsSubstType(u, ApplyType(u, t), f);
  }

  lemma {:induction false} ApplyTypeStaysIn(steps: seq<Step>, t: Type, f: Fragment)
    requires TypeIn(t, f) && StepsIn(steps, f)
    ensures TypeIn(ApplyType(steps, t), f)
  {
    if steps != [] {
      StepTypeFacts(t, steps[0], f);
      ApplyTypeStaysIn(steps[1..], StepType(t, steps[0]), f);
    }
  }

  // ----- exact limits -----

  /**
   * For single channel uses: failure always means that no substitution unifies them, and success
   * yields a most general unifier exactly when no offset was ignored.
   */
  lemma ChannelUseExactly(a: ChannelUse, b: ChannelUse)
    ensures VisitChannelUse(a, b).Err? ==> forall s: Subst :: SubUse(s, a) != SubUse(s, b)
    ensures var r := VisitChannelUse(a, b);
            r.Ok? ==>
              && (ApplyUse(r.steps, a) == ApplyUse(r.steps, b) <==> !OffsetIgnored(a, b))
              && ((forall s: Subst :: SubUse(s, a) == SubUse(s, b) ==> SolvesAll(s, r.steps))
                  <==> !OffsetIgnored(a, b))
  {
    var r := VisitChannelUse(a, b);
    if r.Ok? {
      if OffsetIgnored(a, b) {
        // a.name + a.offset == b.name + b.offset has a solution that is not the one returned
        var s := Subst(_ => Void, _ => Bottom, n => if n == a.name then Constant(b.offset) else Constant(a.offset));
        assert SubUse(s, a) == SubUse(s, b);
        assert !Solves(s, r.steps[0]);
      }
      assert r.steps == [] || ApplyUse(r.steps, a) == StepUse(a, r.steps[0]);
      assert r.steps == [] || ApplyUse(r.steps, b) == StepUse(b, r.steps[0]);
    }
  }

  /** A step that puts a bigger term for a variable inside a term makes that term bigger. */
  lemma {:induction false} StepGrowsType(t: Type, step: Step)
    requires !step.ChannelStep? && Target(step) <= TypeVars(t)
    ensures step.TypeStep? ==> TypeSize(StepType(t, step)) >= TypeSize(step.t)
    ensures step.TypeStep? && !t.Generic? ==> TypeSize(StepType(t, step)) > TypeSize(step.t)
    ensures step.StackStep? ==> TypeSize(StepType(t, step)) > StackSize(step.s)
  {
    match t
    case Channel(_, _, c) => StepGrowsType(c, step);
    case Function(i, o) =>
      if Target(step) <= StackVars(i) { StepGrowsStack(i, step); } else { StepGrowsStack(o, step); }
    case _ =>
  }

  lemma {:induction false} StepGrowsStack(k: Stack, step: Step)
    requires !step.ChannelStep? && Target(step) <= StackVars(k)
    ensures step.TypeStep? ==> StackSize(StepStack(k, step)) > TypeSize(step.t)
    ensures step.StackStep? ==> StackSize(StepStack(k, step)) >= StackSize(step.s)
    ensures step.StackStep? && !k.StackGeneric? ==> StackSize(StepStack(k, step)) > StackSize(step.s)
  {
    match k
    case Push(b, t) =>
      if Target(step) <= StackVars(b) { StepGrowsStack(b, step); } else { StepGrowsType(t, step); }
    case _ =>
  }

  /** What binding a type variable needs of the other side to be sound. */
  predicate BindsSoundly(a: Type, b: Type)
    requires a.Generic?
  {
    a == b ||
    if b.Generic? then a.n == b.n || a.constraints <= b.constraints
    else TVar(a.n) !in TypeVars(b) && forall c | c in a.constraints :: HasConstraint(b, c)
  }

  /** With any constraint sets, binding a type variable is sound exactly then. */
  lemma BindTypeExactly(a: Type, b: Type)
    requires a.Generic? && BindType(a, b).Ok?
    ensures var u := BindType(a, b).steps;
            ApplyType(u, a) == ApplyType(u, b) <==> BindsSoundly(a, b)
  {
    var u := BindType(a, b).steps;
    assert forall c | c in a.constraints && !HasConstraint(b, c) :: c in Missing(a.constraints, b);
    if a != b {
      assert u == [u[0]];
      assert ApplyType(u, a) == StepType(a, u[0]) && ApplyType(u, b) == StepType(b, u[0]);
      if !b.Generic? {
        if u[0].TypeStep? {
          if TVar(a.n) in TypeVars(b) {
            StepGrowsType(b, u[0]);
          } else {
            StepTypeAbsent(b, u[0]);
          }
        }
      }
    }
  }

  /** The stack variable at the bottom of the stack, if any, already has the constraints. */
  predicate BaseHas(k: Stack, cs: set<StackConstraint>) {
    match k
    case Bottom => true
    case StackGeneric(_, own) => cs <= own
    case Push(b, _) => BaseHas(b, cs)
  }

  lemma {:induction false} AddConstraintsExactly(k: Stack, cs: set<StackConstraint>)
    ensures AddConstraints(k, cs) == k <==> BaseHas(k, cs)
    ensures StackSize(AddConstraints(k, cs)) == StackSize(k)
  {
    match k
    case Push(b, _) => AddConstraintsExactly(b, cs);
    case StackGeneric(_, own) => assert own + cs == own <==> cs <= own;
    case Bottom =>
  }

  lemma BindStackExactly(a: Stack, b: Stack)
    requires a.StackGeneric? && BindStack(a, b).Ok?
    ensures var u := BindStack(a, b).steps;
            ApplyStack(u, a) == ApplyStack(u, b) <==>
            (b.StackGeneric? && a.n == b.n) || (SVar(a.n) !in StackVars(b) && BaseHas(b, a.stackConstraints))
  {
    var u := BindStack(a, b).steps;
    if a != b {
      assert u == [u[0]];
      assert ApplyStack(u, a) == StepStack(a, u[0]) && ApplyStack(u, b) == StepStack(b, u[0]);
      AddConstraintsExactly(b, a.stackConstraints);
      if SVar(a.n) in StackVars(b) {
        StepGrowsStack(b, u[0]);
      } else {
        StepStackAbsent(b, u[0]);
      }
    }
  }

  lemma SubNested(s: Subst, outer: ChannelUse, inner: ChannelUse)
    ensures SubType(s, Channel(outer, Rx, Channel(inner, Rx, Integer)))
            == Channel(SubUse(s, outer), Rx, Channel(SubUse(s, inner), Rx, Integer))
  {
    assert SubType(s, Channel(inner, Rx, Integer)) == Channel(SubUse(s, inner), Rx, Integer);
  }

  /**
   * A step found for a channel's use is not applied to its payload: when a channel variable stands
   * with two payloads, a run can succeed on terms that have no unifier, and not unify them.
   */
  lemma ChannelVariablesAreUnsound()
    ensures var a := Channel(Variable(0, 0), Rx, Channel(Variable(0, 0), Rx, Integer));
            var b := Channel(Constant(1), Rx, Channel(Constant(2), Rx, Integer));
            && VisitTypes(3, a, b).Ok?
            && ApplyType(VisitTypes(3, a, b).steps, a) != ApplyType(VisitTypes(3, a, b).steps, b)
            && (forall s: Subst :: !Unifies(s, a, b)) && !OnePayload(a, b)
  {
    var a := Channel(Variable(0, 0), Rx, Channel(Variable(0, 0), Rx, Integer));
    var b := Channel(Constant(1), Rx, Channel(Constant(2), Rx, Integer));
    var inner := VisitTypes(2, a.payload, b.payload);
    assert VisitTypes(1, Integer, Integer) == Ok([]);
    assert inner == Ok([ChannelStep(0, Constant(2))]);
    var u := VisitTypes(3, a, b).steps;
    assert u == [ChannelStep(0, Constant(1)), ChannelStep(0, Constant(2))];
    ApplyChannel(u, a.use, Rx, a.payload);
    ApplyChannel(u, b.use, Rx, b.payload);
    ApplyChannel(u, a.use, Rx, Integer);
    ApplyChannel(u, Constant(2), Rx, Integer);
    assert u[1..][1..] == [];
    assert ApplyUse(u, Variable(0, 0)) == Constant(1);
    Fixed(u, Constant(2));
    forall s: Subst
      ensures !Unifies(s, a, b)
    {
      SubNested(s, a.use, a.use);
      SubNested(s, Constant(1), Constant(2));
    }
  }

  /**
   * The branch for two channels, when the variable that the uses' step removes occurs in neither
   * payload: given steps that unify the payloads, the channels become equal exactly when no offset was
   * ignored, or the variable it was ignored for becomes unbounded.
   */
  lemma ChannelBranchExactly(a: Type, b: Type, w: seq<Step>)
    requires a.Channel? && b.Channel? && a.direction == b.direction && VisitChannelUse(a.use, b.use).Ok?
    requires ApplyType(w, a.payload) == ApplyType(w, b.payload)
    requires forall step | step in VisitChannelUse(a.use, b.use).steps :: step.n !in TypeUses(a.payload) + TypeUses(b.payload)
    ensures var u := VisitChannelUse(a.use, b.use).steps;
            ApplyType(u + w, a) == ApplyType(u + w, b) <==>
            !OffsetIgnored(a.use, b.use) || ApplyUse(w, Variable(b.use.name, 0)) == Infinity
  {
    var u := VisitChannelUse(a.use, b.use).steps;
    if u == [] {
      assert u + w == w;
      ApplyChannel(w, a.use, a.direction, a.payload);
      ApplyChannel(w, b.use, b.direction, b.payload);
    } else {
      var x, v := u[0].n, u[0].use;
      assert u == [ChannelStep(x, v)];
      StepThenPayload(a, x, v, w);
      StepThenPayload(b, x, v, w);
      UseBranchExactly(a.use, b.use, ChannelStep(x, v), w);
    }
  }

  lemma UseBranchExactly(a: ChannelUse, b: ChannelUse, u: Step, w: seq<Step>)
    requires VisitChannelUse(a, b) == Ok([u])
    ensures ApplyUse(w, StepUse(a, u)) == ApplyUse(w, StepUse(b, u)) <==>
            !OffsetIgnored(a, b) || ApplyUse(w, Variable(b.name, 0)) == Infinity
  {
    if OffsetIgnored(a, b) {
      Shifts(w, b.name, 0, b.offset);
      Shifts(w, b.name, 0, b.offset + a.offset);
    }
  }
}
