/**
 * The unifier as the code runs it: a list of steps extended in place and applied in a loop, threaded
 * through the two mutually recursive visitors. Each method is tied to the function it computes.
 */
module UnifierObject {
  import opened StatickTypes
  import opened Unify
  import opened Wrappers

  class Unifier {
    var steps: seq<Step>

    constructor ()
      ensures steps == []
    {
      steps := [];
    }

    method Add(step: Step)
      modifies this
      ensures steps == old(steps) + [step]
    {
      steps := steps + [step];
    }

    method Compose(other: Unifier)
      modifies this
      ensures steps == old(steps) + old(other.steps)
    {
      steps := steps + other.steps;
    }

    method ApplyToType(t: Type) returns (r: Type)
      ensures r == ApplyType(steps, t)
    {
      r := t;
      var k := 0;
      while k < |steps|
        invariant 0 <= k <= |steps|
        invariant ApplyType(steps[k..], r) == ApplyType(steps, t)
      {
        assert steps[k..][1..] == steps[k + 1..];
        r := StepType(r, steps[k]);
        k := k + 1;
      }
    }

    method ApplyToStack(s: Stack) returns (r: Stack)
      ensures r == ApplyStack(steps, s)
    {
      r := s;
      var k := 0;
      while k < |steps|
        invariant 0 <= k <= |steps|
        invariant ApplyStack(steps[k..], r) == ApplyStack(steps, s)
      {
        assert steps[k..][1..] == steps[k + 1..];
        r := StepStack(r, steps[k]);
        k := k + 1;
      }
    }
  }

  /** The set of constraints of `cs` that `b` lacks, collected one constraint at a time. */
  method CollectMissing(cs: set<Constraint>, b: Type) returns (missing: set<Constraint>)
    ensures missing == Missing(cs, b) && forall c :: c in missing <==> c in cs && !HasConstraint(b, c)
  {
    missing := {};
    var rest := cs;
    while rest != {}
      invariant rest <= cs && missing == Missing(cs - rest, b)
      decreases rest
    {
      var c :| c in rest;
      if !HasConstraint(b, c) {
        missing := missing + {c};
      }
      rest := rest - {c};
    }
  }

  method CollectMissingStack(cs: set<StackConstraint>, b: Stack) returns (missing: set<StackConstraint>)
    ensures missing == MissingStack(cs, b) && forall c :: c in missing <==> c in cs && !SatisfiesStackConstraint(b, c)
  {
    missing := {};
    var rest := cs;
    while rest != {}
      invariant rest <= cs && missing == MissingStack(cs - rest, b)
      decreases rest
    {
      var c :| c in rest;
      if !SatisfiesStackConstraint(b, c) {
        missing := missing + {c};
      }
      rest := rest - {c};
    }
  }

  /** What a visitor has done: appended the steps of a success, or reported the failure. */
  predicate Visited(before: seq<Step>, after: seq<Step>, error: Option<TypeError>, r: Outcome) {
    match error
    case None => r.Ok? && after == before + r.steps
    case Some(e) => r == Err(e)
  }

  method VisitUse(a: ChannelUse, b: ChannelUse, unifier: Unifier) returns (error: Option<TypeError>)
    modifies unifier
    ensures Visited(old(unifier.steps), unifier.steps, error, VisitChannelUse(a, b))
    decreases if a.Variable? then 0 else 1
  {
    if a == b {
      return None;
    }
    if a.Variable? {
      var replacement;
      match b {
        case Infinity => replacement := Infinity;
        case Constant(k) =>
          if k < a.offset {
            return Some(NonUnifiableChannelUses(a, b));
          }
          replacement := Constant(k - a.offset);
        case Variable(m, p) => replacement := if a.name == m then Infinity else Variable(m, p);
      }
      unifier.Add(ChannelStep(a.name, replacement));
      error := None;
    } else if b.Variable? {
      error := VisitUse(b, a, unifier);
    } else {
      error := Some(NonUnifiableChannelUses(a, b));
    }
  }

  /** The arm of `Types` for a type variable on the left. */
  method Bind(a: Type, b: Type, unifier: Unifier) returns (error: Option<TypeError>)
    requires a.Generic?
    modifies unifier
    ensures Visited(old(unifier.steps), unifier.steps, error, BindType(a, b))
  {
    if !TypeContains(b, a) {
      var step;
      if b.Generic? {
        step := TypeStep(a.n, Generic(b.n, a.constraints + b.constraints));
      } else {
        var missing := CollectMissing(a.constraints, b);
        if |missing| == 1 && Droppable in missing {
          SingletonSet(missing, Droppable);
          if b.Channel? && b.use.Variable? && b.use.offset == 0 {
            unifier.Add(ChannelStep(b.use.name, Constant(0)));
            return None;
          }
          return Some(MissingConstraints(a, b, missing));
        }
        if missing != {} {
          return Some(MissingConstraints(a, b, missing));
        }
        step := TypeStep(a.n, b);
      }
      unifier.Add(step);
      error := None;
    } else if a == b {
      error := None;
    } else {
      error := Some(NonUnifiableTypes(a, b));
    }
  }

  /** The arm of `Stacks` for a stack variable on the left. */
  method BindToStack(a: Stack, b: Stack, unifier: Unifier) returns (error: Option<TypeError>)
    requires a.StackGeneric?
    modifies unifier
    ensures Visited(old(unifier.steps), unifier.steps, error, BindStack(a, b))
  {
    if !StackContainsStack(b, a) {
      var missing := CollectMissingStack(a.stackConstraints, b);
      if b.Bottom? {
        if AllowBottom !in a.stackConstraints {
          return Some(BottomNotAllowed(a, b));
        }
      } else if missing != {} {
        return Some(MissingStackConstraints(a, b, missing));
      }
      unifier.Add(StackStep(a.n, AddConstraints(b, a.stackConstraints)));
      error := None;
    } else if a == b {
      error := None;
    } else {
      error := Some(NonUnifiableStacks(a, b));
    }
  }

  /** `fuel` is a ghost: any recursion budget that suffices, as `UnifyTheorems.Termination` provides. */
  method Types(a: Type, b: Type, unifier: Unifier, ghost fuel: nat) returns (error: Option<TypeError>)
    requires VisitTypes(fuel, a, b) != OutOfFuel
    modifies unifier
    ensures Visited(old(unifier.steps), unifier.steps, error, VisitTypes(fuel, a, b))
    decreases fuel, 1
  {
    if a.Channel? && b.Channel? {
      error := VisitUse(a.use, b.use, unifier);
      if error.Some? {
        return;
      }
      if a.direction != b.direction {
        return Some(NonUnifiableTypes(a, b));
      }
      error := Types(a.payload, b.payload, unifier, fuel - 1);
    } else if a.Function? && b.Function? {
      error := Functions(a, b, unifier, fuel);
    } else if a.Generic? {
      error := Bind(a, b, unifier);
    } else if b.Generic? {
      error := Types(b, a, unifier, fuel - 1);
    } else if a == b {
      error := None;
    } else {
      error := Some(NonUnifiableTypes(a, b));
    }
  }

  /** Outputs first; the inputs are unified as they are after that. */
  method Functions(a: Type, b: Type, unifier: Unifier, ghost fuel: nat) returns (error: Option<TypeError>)
    requires a.Function? && b.Function? && VisitTypes(fuel, a, b) != OutOfFuel
    modifies unifier
    ensures Visited(old(unifier.steps), unifier.steps, error, VisitTypes(fuel, a, b))
    decreases fuel, 0
  {
    var newUnifier := new Unifier();
    error := Stacks(a.output, b.output, newUnifier, fuel - 1);
    if error.Some? {
      return;
    }
    ghost var outputs := VisitStacks(fuel - 1, a.output, b.output);
    assert newUnifier.steps == outputs.steps;
    var i1 := newUnifier.ApplyToStack(a.input);
    var i2 := newUnifier.ApplyToStack(b.input);
    unifier.Compose(newUnifier);
    error := Stacks(i1, i2, unifier, fuel - 1);
    ThenVisited(old(unifier.steps), unifier.steps, error, outputs.steps, VisitStacks(fuel - 1, i1, i2));
  }

  method Stacks(a: Stack, b: Stack, unifier: Unifier, ghost fuel: nat) returns (error: Option<TypeError>)
    requires VisitStacks(fuel, a, b) != OutOfFuel
    modifies unifier
    ensures Visited(old(unifier.steps), unifier.steps, error, VisitStacks(fuel, a, b))
    decreases fuel, 1
  {
    if a.StackGeneric? {
      error := BindToStack(a, b, unifier);
    } else if b.StackGeneric? {
      error := Stacks(b, a, unifier, fuel - 1);
    } else if a.Push? && b.Push? {
      var newUnifier := new Unifier();
      error := Types(a.top, b.top, newUnifier, fuel - 1);
      if error.Some? {
        return;
      }
      ghost var tops := VisitTypes(fuel - 1, a.top, b.top);
      assert newUnifier.steps == tops.steps;
      var b1 := newUnifier.ApplyToStack(a.base);
      var b2 := newUnifier.ApplyToStack(b.base);
      unifier.Compose(newUnifier);
      error := Stacks(b1, b2, unifier, fuel - 1);
      ThenVisited(old(unifier.steps), unifier.steps, error, tops.steps, VisitStacks(fuel - 1, b1, b2));
    } else if a == b {
      error := None;
    } else {
      error := Some(NonUnifiableStacks(a, b));
    }
  }

  lemma ThenVisited(before: seq<Step>, after: seq<Step>, error: Option<TypeError>, first: seq<Step>, rest: Outcome)
    requires Visited(before + first, after, error, rest)
    ensures Visited(before, after, error, Prepend(first, rest))
  {
  }

  lemma SingletonSet<T>(s: set<T>, x: T)
    requires |s| == 1 && x in s
    ensures s == {x}
  {
    assert |s - {x}| == 0;
  }
}
