/**
 * The types of the Statick language: two mutually recursive sorts, `Type` and `Stack`, with type
 * variables, stack variables and channel-use variables, and the steps of a unifier.
 */
module StatickTypes {

  datatype ChannelUse = Infinity | Constant(count: nat) | Variable(name: nat, offset: nat)

  datatype Direction = Rx | Tx

  datatype Constraint = Droppable | Duplicable | MustConsume | IntLike

  datatype StackConstraint = NoConsumableOrDroppableTypes | AllowBottom | MustBeBase

  datatype Type =
    | Boolean
    | Integer
    | Counter(id: nat)
    | Void
    | Channel(use: ChannelUse, direction: Direction, payload: Type)
    | Generic(n: nat, constraints: set<Constraint>)
    | Function(input: Stack, output: Stack)

  datatype Stack =
    | Bottom
    | StackGeneric(n: nat, stackConstraints: set<StackConstraint>)
    | Push(base: Stack, top: Type)

  datatype TypeError =
    | NonUnifiableTypes(a: Type, b: Type)
    | NonUnifiableStacks(sa: Stack, sb: Stack)
    | NonUnifiableChannelUses(ua: ChannelUse, ub: ChannelUse)
    | MissingConstraints(a: Type, b: Type, missing: set<Constraint>)
    | MissingStackConstraints(sa: Stack, sb: Stack, missingStack: set<StackConstraint>)
    | BottomNotAllowed(sa: Stack, sb: Stack)
    | NotAFunction(t: Type)
    | ConsumedTypesWerentConsumed(sa: Stack, sb: Stack, unconsumed: set<Type>)

  datatype Step =
    | TypeStep(n: nat, t: Type)
    | StackStep(n: nat, s: Stack)
    | ChannelStep(n: nat, use: ChannelUse)

  // ----- constraints -----

  predicate HasConstraint(t: Type, c: Constraint) {
    match t
    case Boolean | Integer => c != MustConsume
    case Void => c == Droppable || c == Duplicable
    case Function(_, _) => c == Droppable || c == Duplicable
    case Counter(_) => c == IntLike
    case Channel(Constant(k), d, _) =>
      (c == MustConsume && k > 0) || (c == Droppable && k == 0 && d == Rx)
    case Channel(_, _, _) => false
    case Generic(_, cs) => c in cs
  }

  predicate SatisfiesStackConstraint(s: Stack, c: StackConstraint) {
    match s
    case Bottom => true
    case StackGeneric(_, _) => true
    case Push(b, t) =>
      match c
      case NoConsumableOrDroppableTypes =>
        !HasConstraint(t, MustConsume) && HasConstraint(t, Droppable) && SatisfiesStackConstraint(b, c)
      case AllowBottom => SatisfiesStackConstraint(b, c)
      case MustBeBase => false
  }

  function AddConstraints(s: Stack, cs: set<StackConstraint>): Stack {
    match s
    case Bottom => Bottom
    case StackGeneric(n, own) => StackGeneric(n, own + cs)
    case Push(b, t) => Push(AddConstraints(b, cs), t)
  }

  // ----- containment, by equality of whole terms -----

  predicate TypeContains(t: Type, a: Type) {
    t == a ||
    match t
    case Channel(_, _, c) => TypeContains(c, a)
    case Function(i, o) => StackContains(i, a) || StackContains(o, a)
    case _ => false
  }

  predicate StackContains(s: Stack, a: Type) {
    match s
    case Push(b, t) => TypeContains(t, a) || StackContains(b, a)
    case _ => false
  }

  predicate TypeContainsStack(t: Type, a: Stack) {
    match t
    case Channel(_, _, c) => TypeContainsStack(c, a)
    case Function(i, o) => StackContainsStack(i, a) || StackContainsStack(o, a)
    case _ => false
  }

  predicate StackContainsStack(s: Stack, a: Stack) {
    s == a ||
    match s
    case Push(b, t) => StackContainsStack(b, a) || TypeContainsStack(t, a)
    case _ => false
  }

  // ----- applying one step, and a list of steps in order -----

  function StepUse(u: ChannelUse, step: Step): ChannelUse {
    if step.ChannelStep? && u.Variable? && u.name == step.n then
      match step.use
      case Infinity => Infinity
      case Constant(k) => Constant(k + u.offset)
      case Variable(m, p) => Variable(m, u.offset + p)
    else u
  }

  function StepType(t: Type, step: Step): Type {
    match t
    case Channel(u, d, c) => Channel(StepUse(u, step), d, StepType(c, step))
    case Generic(m, _) => if step.TypeStep? && m == step.n then step.t else t
    case Function(i, o) => Function(StepStack(i, step), StepStack(o, step))
    case _ => t
  }

  function StepStack(s: Stack, step: Step): Stack {
    match s
    case Bottom => Bottom
    case StackGeneric(m, _) => if step.StackStep? && m == step.n then step.s else s
    case Push(b, t) => Push(StepStack(b, step), StepType(t, step))
  }

  function ApplyUse(steps: seq<Step>, u: ChannelUse): ChannelUse {
    if steps == [] then u else ApplyUse(steps[1..], StepUse(u, steps[0]))
  }

  function ApplyType(steps: seq<Step>, t: Type): Type {
    if steps == [] then t else ApplyType(steps[1..], StepType(t, steps[0]))
  }

  function ApplyStack(steps: seq<Step>, s: Stack): Stack {
    if steps == [] then s else ApplyStack(steps[1..], StepStack(s, steps[0]))
  }
}
