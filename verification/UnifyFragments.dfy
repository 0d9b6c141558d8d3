/**
 * Vocabulary for the theorems about unification: the fragments they speak of, the variables and
 * sizes that bound the recursion, and substitutions.
 */
module UnifyFragments {
  import opened StatickTypes

  /** Which channel uses may occur. */
  datatype Uses = AnyUse | ZeroOffsets | NoVariables

  /** Terms whose type variables all carry `cs` and whose stack variables all carry `ss`. */
  datatype Fragment =
    Fragment(cs: set<Constraint>, ss: set<StackConstraint>, bottom: bool, uses: Uses)

  predicate UseIn(u: ChannelUse, f: Fragment) {
    match f.uses
    case AnyUse => true
    case ZeroOffsets => u.Variable? ==> u.offset == 0
    case NoVariables => !u.Variable?
  }

  predicate TypeIn(t: Type, f: Fragment) {
    match t
    case Channel(u, _, c) => UseIn(u, f) && TypeIn(c, f)
    case Generic(_, cs) => cs == f.cs
    case Function(i, o) => StackIn(i, f) && StackIn(o, f)
    case _ => true
  }

  predicate StackIn(s: Stack, f: Fragment) {
    match s
    case Bottom => f.bottom
    case StackGeneric(_, ss) => ss == f.ss
    case Push(b, t) => StackIn(b, f) && TypeIn(t, f)
  }

  predicate StepIn(step: Step, f: Fragment) {
    match step
    case TypeStep(_, t) => TypeIn(t, f)
    case StackStep(_, s) => StackIn(s, f)
    case ChannelStep(_, u) => UseIn(u, f)
  }

  predicate StepsIn(steps: seq<Step>, f: Fragment) {
    forall step | step in steps :: StepIn(step, f)
  }

  /** Where the algorithm is plain first-order unification: no constraint can reject a binding. */
  predicate FirstOrder(f: Fragment) {
    f.cs == {} && f.uses != AnyUse && (if f.bottom then f.ss == {AllowBottom} else f.ss <= {AllowBottom})
  }

  // ----- variables and sizes -----

  datatype Var = TVar(n: nat) | SVar(n: nat)

  function TypeVars(t: Type): set<Var> {
    match t
    case Channel(_, _, c) => TypeVars(c)
    case Generic(n, _) => {TVar(n)}
    case Function(i, o) => StackVars(i) + StackVars(o)
    case _ => {}
  }

  function StackVars(s: Stack): set<Var> {
    match s
    case Bottom => {}
    case StackGeneric(n, _) => {SVar(n)}
    case Push(b, t) => StackVars(b) + TypeVars(t)
  }

  function TypeSize(t: Type): nat {
    match t
    case Channel(_, _, c) => 1 + TypeSize(c)
    case Function(i, o) => 1 + StackSize(i) + StackSize(o)
    case _ => 1
  }

  function StackSize(s: Stack): nat {
    match s
    case Push(b, t) => 1 + StackSize(b) + TypeSize(t)
    case _ => 1
  }

  // ----- triangular step lists -----

  /** The type or stack variable a step removes. */
  function Target(step: Step): set<Var> {
    match step
    case TypeStep(n, _) => {TVar(n)}
    case StackStep(n, _) => {SVar(n)}
    case ChannelStep(_, _) => {}
  }

  function StepVars(step: Step): set<Var> {
    match step
    case TypeStep(_, t) => TypeVars(t)
    case StackStep(_, s) => StackVars(s)
    case ChannelStep(_, _) => {}
  }

  function Targets(steps: seq<Step>): set<Var> {
    if steps == [] then {} else Target(steps[0]) + Targets(steps[1..])
  }

  /** Each step removes a variable of `vs` for good: no later step brings it back. */
  predicate Triangular(steps: seq<Step>, vs: set<Var>) {
    steps == [] ||
    (Target(steps[0]) <= vs &&
     StepVars(steps[0]) <= vs - Target(steps[0]) &&
     Triangular(steps[1..], vs - Target(steps[0])))
  }

  // ----- substitutions -----

  /** A simultaneous substitution for the three sorts of variables. */
  datatype Subst = Subst(types: nat -> Type, stacks: nat -> Stack, uses: nat -> ChannelUse)

  function SubUse(s: Subst, u: ChannelUse): ChannelUse {
    match u
    case Variable(n, o) =>
      (match s.uses(n)
       case Infinity => Infinity
       case Constant(k) => Constant(k + o)
       case Variable(m, p) => Variable(m, o + p))
    case _ => u
  }

  function SubType(s: Subst, t: Type): Type {
    match t
    case Channel(u, d, c) => Channel(SubUse(s, u), d, SubType(s, c))
    case Generic(n, _) => s.types(n)
    case Function(i, o) => Function(SubStack(s, i), SubStack(s, o))
    case _ => t
  }

  function SubStack(s: Subst, k: Stack): Stack {
    match k
    case Bottom => Bottom
    case StackGeneric(n, _) => s.stacks(n)
    case Push(b, t) => Push(SubStack(s, b), SubType(s, t))
  }

  /** `s` already equates the step's variable with its replacement. */
  predicate Solves(s: Subst, step: Step) {
    match step
    case TypeStep(n, t) => s.types(n) == SubType(s, t)
    case StackStep(n, k) => s.stacks(n) == SubStack(s, k)
    case ChannelStep(n, u) => s.uses(n) == SubUse(s, u)
  }

  predicate SolvesAll(s: Subst, steps: seq<Step>) {
    forall step | step in steps :: Solves(s, step)
  }
}
