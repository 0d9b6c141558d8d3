/**
 * The unification algorithm, branch for branch, as a function. Outside the fragments studied in
 * `UnifyProofs` nothing bounds the recursion, so the function takes a recursion budget and answers
 * `OutOfFuel` when it runs out; `UnifyProofs` shows when some budget suffices, and that any two
 * sufficient budgets agree.
 */
module Unify {
  import opened StatickTypes

  datatype Outcome = Ok(steps: seq<Step>) | Err(error: TypeError) | OutOfFuel

  /** What follows a successful first part: its steps come first. */
  function Prepend(first: seq<Step>, rest: Outcome): Outcome {
    if rest.Ok? then Ok(first + rest.steps) else rest
  }

  function VisitChannelUse(a: ChannelUse, b: ChannelUse): Outcome {
    if a == b then Ok([])
    else match (a, b)
      case (Variable(n, _), Infinity) => Ok([ChannelStep(n, Infinity)])
      case (Variable(n, o), Constant(k)) =>
        if k >= o then Ok([ChannelStep(n, Constant(k - o))]) else Err(NonUnifiableChannelUses(a, b))
      case (Variable(n, _), Variable(m, p)) =>
        Ok([ChannelStep(n, if n == m then Infinity else Variable(m, p))])
      case (Infinity, Variable(n, _)) => Ok([ChannelStep(n, Infinity)])
      case (Constant(k), Variable(n, o)) =>
        if k >= o then Ok([ChannelStep(n, Constant(k - o))]) else Err(NonUnifiableChannelUses(b, a))
      case _ => Err(NonUnifiableChannelUses(a, b))
  }

  function Missing(cs: set<Constraint>, b: Type): set<Constraint> {
    set c | c in cs && !HasConstraint(b, c)
  }

  function MissingStack(cs: set<StackConstraint>, b: Stack): set<StackConstraint> {
    set c | c in cs && !SatisfiesStackConstraint(b, c)
  }

  /** The branch for a type variable `a` against any type. */
  function BindType(a: Type, b: Type): Outcome
    requires a.Generic?
  {
    if !TypeContains(b, a) then
      if b.Generic? then
        Ok([TypeStep(a.n, Generic(b.n, a.constraints + b.constraints))])
      else
        var missing := Missing(a.constraints, b);
        if missing == {Droppable} then
          if b.Channel? && b.use.Variable? && b.use.offset == 0 then
            Ok([ChannelStep(b.use.name, Constant(0))])
          else
            Err(MissingConstraints(a, b, missing))
        else if missing == {} then
          Ok([TypeStep(a.n, b)])
        else
          Err(MissingConstraints(a, b, missing))
    else if a == b then Ok([])
    else Err(NonUnifiableTypes(a, b))
  }

  /** The branch for a stack variable `a` against any stack. */
  function BindStack(a: Stack, b: Stack): Outcome
    requires a.StackGeneric?
  {
    if !StackContainsStack(b, a) then
      if b.Bottom? && AllowBottom !in a.stackConstraints then
        Err(BottomNotAllowed(a, b))
      else if !b.Bottom? && MissingStack(a.stackConstraints, b) != {} then
        Err(MissingStackConstraints(a, b, MissingStack(a.stackConstraints, b)))
      else
        Ok([StackStep(a.n, AddConstraints(b, a.stackConstraints))])
    else if a == b then Ok([])
    else Err(NonUnifiableStacks(a, b))
  }

  function VisitTypes(fuel: nat, a: Type, b: Type): Outcome {
    if fuel == 0 then OutOfFuel
    else if a.Channel? && b.Channel? then
      var uses := VisitChannelUse(a.use, b.use);
      if !uses.Ok? then uses
      else if a.direction == b.direction then
        Prepend(uses.steps, VisitTypes(fuel - 1, a.payload, b.payload))
      else Err(NonUnifiableTypes(a, b))
    else if a.Function? && b.Function? then
      var outputs := VisitStacks(fuel - 1, a.output, b.output);
      if !outputs.Ok? then outputs
      else Prepend(outputs.steps, VisitStacks(fuel - 1, ApplyStack(outputs.steps, a.input),
                                                        ApplyStack(outputs.steps, b.input)))
    else if a.Generic? then BindType(a, b)
    else if b.Generic? then VisitTypes(fuel - 1, b, a)
    else if a == b then Ok([])
    else Err(NonUnifiableTypes(a, b))
  }

  function VisitStacks(fuel: nat, a: Stack, b: Stack): Outcome {
    if fuel == 0 then OutOfFuel
    else if a.StackGeneric? then BindStack(a, b)
    else if b.StackGeneric? then VisitStacks(fuel - 1, b, a)
    else if a.Push? && b.Push? then
      var tops := VisitTypes(fuel - 1, a.top, b.top);
      if !tops.Ok? then tops
      else Prepend(tops.steps, VisitStacks(fuel - 1, ApplyStack(tops.steps, a.base),
                                                     ApplyStack(tops.steps, b.base)))
    else if a == b then Ok([])
    else Err(NonUnifiableStacks(a, b))
  }
}
