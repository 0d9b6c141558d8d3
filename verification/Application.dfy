/**
 * Composing function types: the type of a term is folded, expression by expression, from the
 * identity on a fresh stack. The fold counts channel uses.
 */
module Application {
  import opened StatickTypes
  import opened Unify
  import opened UnifierObject
  import opened TypeCloning
  import opened Wrappers

  datatype Applied = Typed(t: Type, steps: seq<Step>) | Rejected(error: TypeError) | NoFuel

  /** The types on the left that must be consumed and still occur on the right. */
  function Unconsumed(left: Stack, right: Stack): set<Type> {
    match left
    case Push(b, t) =>
      Unconsumed(b, right) + (if HasConstraint(t, MustConsume) && StackContains(right, t) then {t} else {})
    case _ => {}
  }

  function CheckExpression(t: Type): Option<TypeError> {
    if t.Function? then
      if Unconsumed(t.input, t.output) == {} then None
      else Some(ConsumedTypesWerentConsumed(t.input, t.output, Unconsumed(t.input, t.output)))
    else Some(NotAFunction(t))
  }

  /** Functions passed on the stack are checked from the top down. */
  function CheckArguments(s: Stack): Option<TypeError> {
    match s
    case Push(b, t) =>
      if t.Function? && CheckExpression(t).Some? then CheckExpression(t) else CheckArguments(b)
    case _ => None
  }

  function TypeAfterApplication(fuel: nat, lhs: Type, rhs: Type): Applied
    requires lhs.Function? && rhs.Function?
  {
    match VisitStacks(fuel, lhs.output, rhs.input)
    case OutOfFuel => NoFuel
    case Err(e) => Rejected(e)
    case Ok(u) =>
      var arguments := CheckArguments(ApplyStack(u, rhs.input));
      if arguments.Some? then Rejected(arguments.value)
      else Typed(Function(ApplyStack(u, lhs.input), ApplyStack(u, rhs.output)), u)
  }

  /** One expression: application, then the check on what came out. */
  function Extend(fuel: nat, t: Type, e: Type): Applied
    requires t.Function? && e.Function?
  {
    var r := TypeAfterApplication(fuel, t, e);
    if r.Typed? && CheckExpression(r.t).Some? then Rejected(CheckExpression(r.t).value) else r
  }

  predicate AllFunctions(es: seq<Type>) {
    forall e | e in es :: e.Function?
  }

  function TermType(fuel: nat, t: Type, es: seq<Type>): Applied
    requires t.Function? && AllFunctions(es)
    decreases |es|
  {
    if es == [] then Typed(t, [])
    else
      var r := Extend(fuel, t, es[0]);
      if !r.Typed? then r
      else After(r.steps, TermType(fuel, r.t, es[1..]))
  }

  method ApplyTo(t: Type, e: Type, unifier: Unifier, ghost fuel: nat)
    returns (error: Option<TypeError>, r: Type)
    requires t.Function? && e.Function? && Extend(fuel, t, e) != NoFuel
    modifies unifier
    ensures match Extend(fuel, t, e)
            case Typed(t', u) => error == None && r == t' && unifier.steps == old(unifier.steps) + u
            case Rejected(x) => error == Some(x)
            case NoFuel => false
  {
    r := t;
    var u := new Unifier();
    error := Stacks(t.output, e.input, u, fuel);
    if error.Some? {
      return;
    }
    assert u.steps == VisitStacks(fuel, t.output, e.input).steps;
    var argument := u.ApplyToStack(e.input);
    error := CheckArguments(argument);
    if error.Some? {
      return;
    }
    var i := u.ApplyToStack(t.input);
    var o := u.ApplyToStack(e.output);
    r := Function(i, o);
    error := CheckExpression(r);
    unifier.Compose(u);
  }

  /** `visit_term`: the type and the unifier grow as the expressions are visited. */
  method VisitTerm(s: Stack, es: seq<Type>, unifier: Unifier, ghost fuel: nat)
    returns (error: Option<TypeError>, t: Type)
    requires AllFunctions(es) && TermType(fuel, Function(s, s), es) != NoFuel && unifier.steps == []
    modifies unifier
    ensures match TermType(fuel, Function(s, s), es)
            case Typed(r, u) => error == None && t == r && unifier.steps == u
            case Rejected(e) => error == Some(e)
            case NoFuel => false
  {
    t := Function(s, s);
    error := None;
    ghost var whole := TermType(fuel, t, es);
    for k := 0 to |es|
      invariant t.Function?
      invariant whole == After(unifier.steps, TermType(fuel, t, es[k..]))
    {
      assert es[k] in es && es[k..][1..] == es[k + 1..];
      ghost var r, before := Extend(fuel, t, es[k]), unifier.steps;
      error, t := ApplyTo(t, es[k], unifier, fuel);
      if error.Some? {
        return;
      }
      AfterAfter(before, r.steps, TermType(fuel, t, es[k + 1..]));
    }
    error := None;
  }

  function After(first: seq<Step>, r: Applied): Applied {
    if r.Typed? then Typed(r.t, first + r.steps) else r
  }

  lemma AfterAfter(u: seq<Step>, w: seq<Step>, r: Applied)
    ensures After(u, After(w, r)) == After(u + w, r)
  {
    if r.Typed? {
      assert u + (w + r.steps) == u + w + r.steps;
    }
  }

  /** In the end every expression is given its type under the term's whole unifier. */
  method Annotate(es: seq<Type>, unifier: Unifier) returns (types: seq<Type>)
    ensures |types| == |es| && forall k | 0 <= k < |es| :: types[k] == ApplyType(unifier.steps, es[k])
  {
    types := [];
    for k := 0 to |es|
      invariant |types| == k && forall j | 0 <= j < k :: types[j] == ApplyType(unifier.steps, es[j])
    {
      var e := unifier.ApplyToType(es[k]);
      types := types + [e];
    }
  }

  // ----- counting the uses of a channel -----

  function Var(n: nat): Stack {
    StackGeneric(n, {})
  }

  function Sender(v: nat, uses: nat, payload: Type): Type {
    Channel(Variable(v, uses), Tx, payload)
  }

  /** The type of a number: it pushes an integer. */
  function NumberType(s: nat): Type {
    Function(Var(s), Push(Var(s), Integer))
  }

  /** The type of `!`: it takes a sender of use v + 1 and a payload, and leaves the sender at use v. */
  function SendType(v: nat, g: nat, s: nat): Type {
    Function(Push(Push(Var(s), Sender(v, 1, Generic(g, {}))), Generic(g, {})),
             Push(Var(s), Sender(v, 0, Generic(g, {}))))
  }

  /** The allocator builds it from fresh variables, pushing inputs and outputs in turn. */
  method NewSendType(alloc: TypeAllocator) returns (t: Type)
    modifies alloc
    ensures t == SendType(old(alloc.channels), old(alloc.generics), old(alloc.stacks))
    ensures alloc.Now() == Counters(old(alloc.generics) + 1, old(alloc.stacks) + 1, old(alloc.channels) + 1, old(alloc.repeats))
  {
    var v := alloc.NextChannel();
    var g := alloc.NextGeneric();
    var payload := Generic(g, {});
    var input := [Sender(v, 1, payload), payload];
    var output := [Sender(v, 0, payload)];
    var s := alloc.NextStack();
    var i := PushAll(Var(s), input);
    var o := PushAll(Var(s), output);
    t := Function(i, o);
  }

  function Pushed(s: Stack, ts: seq<Type>): Stack {
    if ts == [] then s else Push(Pushed(s, ts[..|ts| - 1]), ts[|ts| - 1])
  }

  method PushAll(s: Stack, ts: seq<Type>) returns (r: Stack)
    ensures r == Pushed(s, ts)
  {
    r := s;
    for k := 0 to |ts|
      invariant r == Pushed(s, ts[..k])
    {
      assert ts[..k + 1][..k] == ts[..k];
      r := Push(r, ts[k]);
    }
    assert ts[..|ts|] == ts;
  }

  lemma SenderFacts(v: nat, uses: nat, x: Type, r: Renaming, cs: map<nat, set<Constraint>>, ss: map<nat, set<StackConstraint>>)
    requires x.Generic?
    ensures GenericsOf(Sender(v, uses, x)) == [x.n] && StacksOf(Sender(v, uses, x)) == []
    ensures ChannelsOf(Sender(v, uses, x)) == {v}
    ensures Consistent(Sender(v, uses, x), cs, ss) <==> x.n in cs && cs[x.n] == x.constraints
    ensures v in r.channels && x.n in r.types ==>
              Covers(r, Sender(v, uses, x)) &&
              RenameType(r, Sender(v, uses, x)) == Sender(r.channels[v], uses, r.types[x.n])
  {
  }

  /** Cloning it only chooses other variables. */
  lemma CloneOfSend(v: nat, g: nat, s: nat, r: Renaming)
    requires Covers(r, SendType(v, g, s)) && KeepsConstraints(r, SendType(v, g, s))
    ensures g in r.types && s in r.stacks && v in r.channels
    ensures r.types[g].Generic? && r.stacks[s].StackGeneric?
    ensures RenameType(r, SendType(v, g, s)) == SendType(r.channels[v], r.types[g].n, r.stacks[s].n)
  {
    var t, x := SendType(v, g, s), Generic(g, {});
    var cs, ss: map<nat, set<StackConstraint>> := map[g := {}], map[s := {}];
    SenderFacts(v, 0, x, r, cs, ss);
    SenderFacts(v, 1, x, r, cs, ss);
    var left := Push(Var(s), Sender(v, 1, x));
    assert StackGenericsOf(t.output) == [g] && StackStacksOf(t.output) == [s] && StackChannelsOf(t.output) == {v};
    assert ConsistentStack(left, cs, ss) && ConsistentStack(t.output, cs, ss);
    CloneKeepsConstraints(t, r, g, cs, ss);
    CloneKeepsConstraints(t, r, s, cs, ss);
    assert RenameStack(r, t.output) == Push(r.stacks[s], Sender(r.channels[v], 0, r.types[g]));
    assert RenameStack(r, left) == Push(r.stacks[s], Sender(r.channels[v], 1, r.types[g]));
    assert RenameStack(r, t.input) == Push(RenameStack(r, left), r.types[g]);
  }
}
