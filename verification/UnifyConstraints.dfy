/**
 * How constraints decide a binding: which constraints a type or a stack meets, and what unification
 * answers for a variable that carries some against a term that lacks some.
 */
module UnifyConstraints {
  import opened StatickTypes
  import opened Unify
  import opened UnifyFragments
  import opened UnifyProofs

  // ----- variables against other terms -----

  ghost predicate MeetsAll(b: Type, cs: set<Constraint>) {
    forall c | c in cs :: HasConstraint(b, c)
  }

  /** `Droppable` is asked for and not met; everything else is. */
  ghost predicate LacksOnlyDroppable(b: Type, cs: set<Constraint>) {
    Droppable in cs && !HasConstraint(b, Droppable) && MeetsAll(b, cs - {Droppable})
  }

  /** The error names exactly what is asked for and not met. */
  ghost predicate BlamesMissing(r: Outcome, a: Type, b: Type)
    requires a.Generic?
  {
    && r.Err? && r.error.MissingConstraints? && r.error.a == a && r.error.b == b
    && forall c :: c in r.error.missing <==> c in a.constraints && !HasConstraint(b, c)
  }

  /** A channel whose uses can still become none. */
  predicate CanBeUsedUp(b: Type) {
    b.Channel? && b.use.Variable? && b.use.offset == 0
  }

  /** The answer for a type variable against a term that is no variable and does not contain it. */
  ghost predicate DecidesType(r: Outcome, a: Type, b: Type)
    requires a.Generic?
  {
    && (r == Ok([TypeStep(a.n, b)]) <==> MeetsAll(b, a.constraints))
    && (CanBeUsedUp(b) && LacksOnlyDroppable(b, a.constraints) ==> r == Ok([ChannelStep(b.use.name, Constant(0))]))
    && (r.Ok? <==> MeetsAll(b, a.constraints) || (CanBeUsedUp(b) && LacksOnlyDroppable(b, a.constraints)))
    && (!r.Ok? ==> BlamesMissing(r, a, b))
  }

  /**
   * A type variable is bound to a term exactly when the term meets all its constraints. One channel is
   * accepted that lacks `Droppable`: its uses become none, and the variable stays. All else is an error
   * that names what is missing. On either side the answer is the same.
   */
  lemma ConstraintsDecideTypes(fuel: nat, a: Type, b: Type)
    requires a.Generic? && !b.Generic? && !TypeContains(b, a) && fuel > 0
    ensures DecidesType(VisitTypes(fuel, a, b), a, b)
    ensures VisitTypes(fuel + 1, b, a) == VisitTypes(fuel, a, b)
  {
    var missing := Missing(a.constraints, b);
    assert MeetsAll(b, a.constraints) ==> missing == {};
    assert forall c | c in a.constraints && !HasConstraint(b, c) :: c in missing;
    assert missing == {Droppable} <==> LacksOnlyDroppable(b, a.constraints) by {
      if missing == {Droppable} {
        assert Droppable in missing;
        forall c | c in a.constraints - {Droppable} ensures HasConstraint(b, c) {
          assert c !in missing;
        }
      }
    }
  }

  ghost predicate SatisfiesAll(k: Stack, cs: set<StackConstraint>) {
    forall c | c in cs :: SatisfiesStackConstraint(k, c)
  }

  ghost predicate BlamesMissingStack(r: Outcome, a: Stack, b: Stack)
    requires a.StackGeneric?
  {
    && r.Err? && r.error.MissingStackConstraints? && r.error.sa == a && r.error.sb == b
    && forall c :: c in r.error.missingStack <==> c in a.stackConstraints && !SatisfiesStackConstraint(b, c)
  }

  /** A stack variable is bound exactly to a stack that meets its constraints; nothing at all must be allowed. */
  lemma ConstraintsDecideStacks(fuel: nat, a: Stack, b: Stack)
    requires a.StackGeneric? && !StackContainsStack(b, a) && fuel > 0
    ensures var r := VisitStacks(fuel, a, b);
            && (r.Ok? <==> if b.Bottom? then AllowBottom in a.stackConstraints else SatisfiesAll(b, a.stackConstraints))
            && (r.Ok? ==> r == Ok([StackStep(a.n, AddConstraints(b, a.stackConstraints))]))
            && (!r.Ok? ==> if b.Bottom? then r == Err(BottomNotAllowed(a, b)) else BlamesMissingStack(r, a, b))
    ensures !b.StackGeneric? ==> VisitStacks(fuel + 1, b, a) == VisitStacks(fuel, a, b)
  {
    var missing := MissingStack(a.stackConstraints, b);
    assert SatisfiesAll(b, a.stackConstraints) ==> missing == {};
    assert forall c | c in a.stackConstraints && !SatisfiesStackConstraint(b, c) :: c in missing;
  }

  // ----- which constraints terms meet -----

  /** The types on a stack, top first. */
  function Entries(k: Stack): seq<Type> {
    match k
    case Push(b, t) => [t] + Entries(b)
    case _ => []
  }

  /** Only what may be dropped, and need not be used up, counts as left alone. */
  predicate Idle(t: Type) {
    HasConstraint(t, Droppable) && !HasConstraint(t, MustConsume)
  }

  lemma {:induction false} StackConstraintsExactly(k: Stack)
    ensures SatisfiesStackConstraint(k, NoConsumableOrDroppableTypes) <==> forall t | t in Entries(k) :: Idle(t)
    ensures SatisfiesStackConstraint(k, AllowBottom)
    ensures SatisfiesStackConstraint(k, MustBeBase) <==> Entries(k) == []
  {
    match k
    case Push(b, t) =>
      StackConstraintsExactly(b);
      assert forall x | x in Entries(k) :: x == t || x in Entries(b);
      assert t in Entries(k) && forall x | x in Entries(b) :: x in Entries(k);
    case _ =>
  }

  /** What must be used up cannot be dropped or duplicated, and is never a number. */
  lemma MustConsumeExcludes(t: Type)
    requires !t.Generic? && HasConstraint(t, MustConsume)
    ensures t.Channel? && t.use.Constant? && t.use.count > 0
    ensures forall c | HasConstraint(t, c) :: c == MustConsume
  {
  }

  /** A channel is never duplicated: it can be dropped when it is a receiver with no uses left, and no other way. */
  lemma ChannelsAreLinear(u: ChannelUse, d: Direction, p: Type, c: Constraint)
    ensures var t := Channel(u, d, p);
            && !HasConstraint(t, Duplicable) && !HasConstraint(t, IntLike)
            && (HasConstraint(t, Droppable) <==> u == Constant(0) && d == Rx)
            && (HasConstraint(t, MustConsume) <==> u.Constant? && u != Constant(0))
  {
  }

  /** What is no channel and no variable can be dropped, and duplicated: but a counter is only a number. */
  lemma PlainTypesAreFree(t: Type)
    requires !t.Channel? && !t.Generic?
    ensures !HasConstraint(t, MustConsume)
    ensures HasConstraint(t, Droppable) <==> !t.Counter?
    ensures HasConstraint(t, Duplicable) <==> !t.Counter?
    ensures HasConstraint(t, IntLike) <==> t.Integer? || t.Boolean? || t.Counter?
  {
  }

  /** Whatever is substituted, a type that is no variable keeps the constraints it meets. */
  lemma ConstraintsSurvive(s: Subst, t: Type, c: Constraint)
    requires !t.Generic? && HasConstraint(t, c)
    ensures HasConstraint(SubType(s, t), c)
  {
  }

  /** Two variables become one that carries the constraints of both. */
  lemma VariablesMerge(fuel: nat, a: Type, b: Type, c: Constraint)
    requires a.Generic? && b.Generic? && a.n != b.n && fuel > 0
    ensures var r := VisitTypes(fuel, a, b);
            r.Ok? && ApplyType(r.steps, a).Generic? && ApplyType(r.steps, a).n == b.n
            && (HasConstraint(ApplyType(r.steps, a), c) <==> HasConstraint(a, c) || HasConstraint(b, c))
  {
    var u := VisitTypes(fuel, a, b).steps;
    assert u[1..] == [] && ApplyType(u, a) == StepType(a, u[0]);
  }

  // ----- no variable ever stands for what lacks its constraints -----

  /** The stack may stand for a variable of the fragment. */
  ghost predicate Suits(k: Stack, f: Fragment) {
    SatisfiesAll(k, f.ss) && (k.Bottom? ==> AllowBottom in f.ss)
  }

  ghost predicate StepSuits(step: Step, f: Fragment) {
    match step
    case TypeStep(_, t) => MeetsAll(t, f.cs)
    case StackStep(_, k) => Suits(k, f)
    case ChannelStep(_, _) => true
  }

  ghost predicate StepsSuit(steps: seq<Step>, f: Fragment) {
    forall step | step in steps :: StepSuits(step, f)
  }

  lemma StepKeepsConstraint(t: Type, step: Step, f: Fragment, c: Constraint)
    requires TypeIn(t, f) && StepSuits(step, f) && HasConstraint(t, c)
    ensures HasConstraint(StepType(t, step), c)
  {
  }

  lemma StepKeepsIdle(t: Type, step: Step, f: Fragment)
    requires TypeIn(t, f) && StepIn(step, f) && StepSuits(step, f) && Idle(t)
    ensures Idle(StepType(t, step))
  {
    StepKeepsConstraint(t, step, f, Droppable);
    if t.Generic? && step.TypeStep? && !step.t.Generic? && HasConstraint(step.t, MustConsume) {
      MustConsumeExcludes(step.t);
    }
  }

  lemma {:induction false} StepKeepsStackConstraint(k: Stack, step: Step, f: Fragment, c: StackConstraint)
    requires StackIn(k, f) && StepIn(step, f) && StepSuits(step, f) && c in f.ss && SatisfiesStackConstraint(k, c)
    ensures SatisfiesStackConstraint(StepStack(k, step), c)
  {
    match k
    case Push(b, t) =>
      if c != MustBeBase { StepKeepsStackConstraint(b, step, f, c); }
      if c == NoConsumableOrDroppableTypes { StepKeepsIdle(t, step, f); }
    case _ =>
  }

  lemma {:induction false} AppliedTypeMeets(steps: seq<Step>, t: Type, f: Fragment)
    requires TypeIn(t, f) && MeetsAll(t, f.cs) && StepsIn(steps, f) && StepsSuit(steps, f)
    ensures MeetsAll(ApplyType(steps, t), f.cs)
  {
    if steps != [] {
      StepTypeFacts(t, steps[0], f);
      forall c | c in f.cs ensures HasConstraint(StepType(t, steps[0]), c) {
        StepKeepsConstraint(t, steps[0], f, c);
      }
      AppliedTypeMeets(steps[1..], StepType(t, steps[0]), f);
    }
  }

  lemma {:induction false} AppliedStackSuits(steps: seq<Step>, k: Stack, f: Fragment)
    requires StackIn(k, f) && Suits(k, f) && StepsIn(steps, f) && StepsSuit(steps, f)
    ensures Suits(ApplyStack(steps, k), f)
  {
    if steps != [] {
      StepStackFacts(k, steps[0], f);
      forall c | c in f.ss ensures SatisfiesStackConstraint(StepStack(k, steps[0]), c) {
        StepKeepsStackConstraint(k, steps[0], f, c);
      }
      AppliedStackSuits(steps[1..], StepStack(k, steps[0]), f);
    }
  }

  lemma BoundStackSuits(fuel: nat, a: Stack, b: Stack, f: Fragment)
    requires a.StackGeneric? && a.stackConstraints == f.ss && StackIn(b, f) && fuel > 0 && VisitStacks(fuel, a, b).Ok?
    ensures StepsSuit(VisitStacks(fuel, a, b).steps, f)
  {
    if !StackContainsStack(b, a) {
      ConstraintsDecideStacks(fuel, a, b);
      AddConstraintsIsIdentity(b, f);
      assert Suits(AddConstraints(b, f.ss), f);
    }
  }

  lemma BoundTypeSuits(fuel: nat, a: Type, b: Type, f: Fragment)
    requires a.Generic? && a.constraints == f.cs && TypeIn(b, f) && fuel > 0 && VisitTypes(fuel, a, b).Ok?
    ensures StepsSuit(VisitTypes(fuel, a, b).steps, f)
  {
    if !TypeContains(b, a) && !b.Generic? { ConstraintsDecideTypes(fuel, a, b); }
  }

  lemma {:induction false} TypesSuit(fuel: nat, a: Type, b: Type, f: Fragment)
    requires TypeIn(a, f) && TypeIn(b, f) && VisitTypes(fuel, a, b).Ok?
    ensures StepsSuit(VisitTypes(fuel, a, b).steps, f)
    decreases fuel, 0
  {
    if a.Channel? && b.Channel? {
      TypesSuit(fuel - 1, a.payload, b.payload, f);
    } else if a.Function? && b.Function? {
      StacksSuit(fuel - 1, a.output, b.output, f);
      StacksTriangular(fuel - 1, a.output, b.output, f);
      RestSuits(fuel - 1, a.input, b.input, VisitStacks(fuel - 1, a.output, b.output).steps,
                StackVars(a.output) + StackVars(b.output), f);
    } else if a.Generic? {
      BoundTypeSuits(fuel, a, b, f);
    } else if b.Generic? {
      TypesSuit(fuel - 1, b, a, f);
    }
  }

  lemma {:induction false} StacksSuit(fuel: nat, a: Stack, b: Stack, f: Fragment)
    requires StackIn(a, f) && StackIn(b, f) && VisitStacks(fuel, a, b).Ok?
    ensures StepsSuit(VisitStacks(fuel, a, b).steps, f)
    decreases fuel, 0
  {
    if a.StackGeneric? {
      BoundStackSuits(fuel, a, b, f);
    } else if b.StackGeneric? {
      StacksSuit(fuel - 1, b, a, f);
    } else if a.Push? && b.Push? {
      TypesSuit(fuel - 1, a.top, b.top, f);
      TypesTriangular(fuel - 1, a.top, b.top, f);
      RestSuits(fuel - 1, a.base, b.base, VisitTypes(fuel - 1, a.top, b.top).steps, TypeVars(a.top) + TypeVars(b.top), f);
    }
  }

  lemma {:induction false} RestSuits(fuel: nat, x: Stack, y: Stack, first: seq<Step>, vs: set<Var>, f: Fragment)
    requires StackIn(x, f) && StackIn(y, f) && StepsIn(first, f) && Triangular(first, vs) && StepsSuit(first, f)
    requires VisitStacks(fuel, ApplyStack(first, x), ApplyStack(first, y)).Ok?
    ensures StepsSuit(first + VisitStacks(fuel, ApplyStack(first, x), ApplyStack(first, y)).steps, f)
    decreases fuel, 1
  {
    var ws := vs + StackVars(x) + StackVars(y);
    TriangularWiden(first, vs, ws);
    ApplyStackFacts(first, x, ws, f);
    ApplyStackFacts(first, y, ws, f);
    StacksSuit(fuel, ApplyStack(first, x), ApplyStack(first, y), f);
  }

  /**
   * Whatever the uniform constraint sets: after a successful unification every type variable stands for
   * a type that meets its constraints, and every stack variable for a stack that meets its own.
   */
  lemma VariablesKeepConstraints(fuel: nat, a: Type, b: Type, f: Fragment, n: nat)
    requires TypeIn(a, f) && TypeIn(b, f) && VisitTypes(fuel, a, b).Ok?
    ensures var u := VisitTypes(fuel, a, b).steps;
            && MeetsAll(ApplyType(u, Generic(n, f.cs)), f.cs)
            && Suits(ApplyStack(u, StackGeneric(n, f.ss)), f)
  {
    var u := VisitTypes(fuel, a, b).steps;
    TypesSuit(fuel, a, b, f);
    TypesTriangular(fuel, a, b, f);
    AppliedTypeMeets(u, Generic(n, f.cs), f);
    AppliedStackSuits(u, StackGeneric(n, f.ss), f);
  }
}
