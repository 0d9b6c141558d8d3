/**
 * What the type of a term means. The checker folds the types of a term's expressions; a typing of the
 * term is a row of stacks, one between each two expressions, that fits all their types at once.
 */
module PrincipalTyping {
  import opened StatickTypes
  import opened Unify
  import opened UnifyFragments
  import opened UnifyProofs
  import opened UnifyChannels
  import opened UnifyTheorems
  import opened Application

  // ----- the checks on the way -----

  /** The types on a stack. */
  function Entries(k: Stack): set<Type> {
    match k
    case Push(b, t) => {t} + Entries(b)
    case _ => {}
  }

  /** Somewhere on a stack, or inside what is on it. */
  predicate Somewhere(k: Stack, t: Type) {
    exists e | e in Entries(k) :: TypeContains(e, t)
  }

  lemma {:induction false} ContainsSomewhere(k: Stack, t: Type)
    ensures StackContains(k, t) <==> Somewhere(k, t)
  {
    match k
    case Push(b, e) => ContainsSomewhere(b, t);
    case _ =>
  }

  /** What is left over is exactly what must be used up, comes in, and is still there when the rest goes out. */
  lemma {:induction false} UnconsumedExactly(left: Stack, right: Stack, t: Type)
    ensures t in Unconsumed(left, right) <==> t in Entries(left) && HasConstraint(t, MustConsume) && Somewhere(right, t)
  {
    match left
    case Push(b, e) =>
      UnconsumedExactly(b, right, t);
      ContainsSomewhere(right, e);
    case _ =>
  }

  /** A function leaves nothing over. */
  predicate UsesUp(t: Type) {
    t.Function? && forall x | x in Entries(t.input) && HasConstraint(x, MustConsume) :: !Somewhere(t.output, x)
  }

  lemma ExpressionsUseUp(t: Type)
    ensures CheckExpression(t).None? <==> UsesUp(t)
    ensures t.Function? && CheckExpression(t).Some? ==>
              CheckExpression(t).value.ConsumedTypesWerentConsumed? &&
              CheckExpression(t).value.sa == t.input && CheckExpression(t).value.sb == t.output &&
              forall x :: x in CheckExpression(t).value.unconsumed <==>
                          x in Entries(t.input) && HasConstraint(x, MustConsume) && Somewhere(t.output, x)
  {
    if t.Function? {
      forall x ensures x in Unconsumed(t.input, t.output) <==>
                       x in Entries(t.input) && HasConstraint(x, MustConsume) && Somewhere(t.output, x)
      {
        UnconsumedExactly(t.input, t.output, x);
      }
    }
  }

  /** Arguments pass exactly when every function among them uses up what it must. */
  lemma {:induction false} ArgumentsUseUp(k: Stack)
    ensures CheckArguments(k).None? <==> forall t | t in Entries(k) && t.Function? :: UsesUp(t)
  {
    match k
    case Push(b, t) =>
      ArgumentsUseUp(b);
      ExpressionsUseUp(t);
      assert forall x | x in Entries(k) :: x == t || x in Entries(b);
      assert t in Entries(k) && forall x | x in Entries(b) :: x in Entries(k);
    case _ =>
  }

  /** The error of an expression that leaves over what it must use up, and of no other. */
  predicate LeavesOver(r: Applied) {
    r.Rejected? && r.error.ConsumedTypesWerentConsumed?
  }

  lemma {:induction false} ArgumentErrors(k: Stack)
    ensures CheckArguments(k).Some? ==> CheckArguments(k).value.ConsumedTypesWerentConsumed?
  {
    match k
    case Push(b, _) => ArgumentErrors(b);
    case _ =>
  }

  function Depth(k: Stack): nat {
    if k.Push? then 1 + Depth(k.base) else 0
  }

  /** The `i`-th type from the top. */
  function FromTop(k: Stack, i: nat): Type
    requires i < Depth(k)
  {
    if i == 0 then k.top else FromTop(k.base, i - 1)
  }

  predicate LeftOverAt(k: Stack, i: nat) {
    i < Depth(k) && FromTop(k, i).Function? && !UsesUp(FromTop(k, i))
  }

  /** Of several such arguments the one nearest to the top is blamed. */
  lemma {:induction false} TopmostIsBlamed(k: Stack) returns (i: nat)
    requires CheckArguments(k).Some?
    ensures LeftOverAt(k, i) && forall j: nat | j < i :: !LeftOverAt(k, j)
    ensures var e := CheckArguments(k).value;
            e.ConsumedTypesWerentConsumed? && Function(e.sa, e.sb) == FromTop(k, i)
  {
    ExpressionsUseUp(k.top);
    if k.top.Function? && !UsesUp(k.top) {
      i := 0;
    } else {
      var below := TopmostIsBlamed(k.base);
      i := below + 1;
      forall j: nat | j < i ensures !LeftOverAt(k, j) {
        if j > 0 { assert !LeftOverAt(k.base, j - 1); }
      }
    }
  }

  /** What one more expression comes to, if its input unifies: it is accepted exactly when nothing is left over. */
  lemma AcceptedExactly(fuel: nat, t: Type, e: Type)
    requires t.Function? && e.Function? && VisitStacks(fuel, t.output, e.input).Ok?
    ensures var u := VisitStacks(fuel, t.output, e.input).steps;
            var whole, arguments := Function(ApplyStack(u, t.input), ApplyStack(u, e.output)), Entries(ApplyStack(u, e.input));
            && (Extend(fuel, t, e).Typed? <==> UsesUp(whole) && forall x | x in arguments && x.Function? :: UsesUp(x))
            && (Extend(fuel, t, e).Typed? ==> Extend(fuel, t, e).t == whole)
            && (!Extend(fuel, t, e).Typed? ==> LeavesOver(Extend(fuel, t, e)))
  {
    var u := VisitStacks(fuel, t.output, e.input).steps;
    ArgumentsUseUp(ApplyStack(u, e.input));
    ArgumentErrors(ApplyStack(u, e.input));
    ExpressionsUseUp(Function(ApplyStack(u, t.input), ApplyStack(u, e.output)));
  }

  /** So no beginning of a typed term leaves over what it must use up. */
  lemma {:induction false} BeginningsUseUp(fuel: nat, t: Type, es: seq<Type>, k: nat)
    requires t.Function? && AllFunctions(es) && TermType(fuel, t, es).Typed? && 0 < k <= |es|
    ensures AllFunctions(es[..k]) && TermType(fuel, t, es[..k]).Typed? && UsesUp(TermType(fuel, t, es[..k]).t)
    decreases k
  {
    var r := Extend(fuel, t, es[0]);
    assert es[0] in es && es[..k][0] == es[0] && es[..k][1..] == es[1..][..k - 1];
    AcceptedExactly(fuel, t, es[0]);
    if k > 1 { BeginningsUseUp(fuel, r.t, es[1..], k - 1); }
  }

  // ----- typings -----

  predicate TypesIn(es: seq<Type>, f: Fragment) {
    AllFunctions(es) && forall e | e in es :: TypeIn(e, f)
  }

  /** One substitution under which each expression takes one stack of the row to the next. */
  ghost predicate Typing(s: Subst, es: seq<Type>, ks: seq<Stack>) {
    |ks| == |es| + 1 && forall k | 0 <= k < |es| :: SubType(s, es[k]) == Function(ks[k], ks[k + 1])
  }

  /** The function so far goes on to where the first expression starts. */
  lemma OneExpression(fuel: nat, t: Type, e: Type, s: Subst, f: Fragment)
    requires t.Function? && e.Function? && TypeIn(t, f) && TypeIn(e, f) && NoShortcut(f) && f.uses != AnyUse
    requires SubStack(s, t.output) == SubStack(s, e.input)
    ensures var r := Extend(fuel, t, e);
            && (r.Typed? ==> SolvesAll(s, r.steps) && r.t.Function? && TypeIn(r.t, f)
                             && SubStack(s, r.t.input) == SubStack(s, t.input) && SubStack(s, r.t.output) == SubStack(s, e.output))
            && (r.Rejected? && Unconstrained(f) ==> LeavesOver(r))
  {
    var u := VisitStacks(fuel, t.output, e.input);
    ZeroOffsetStacks(fuel, t.output, e.input, f);
    StacksEquivalent(fuel, t.output, e.input, s, f);
    if u.Ok? {
      StacksTriangular(fuel, t.output, e.input, f);
      StaysIn(u.steps, t.input, f);
      StaysIn(u.steps, e.output, f);
      SolvedStepsStack(s, u.steps, t.input);
      SolvedStepsStack(s, u.steps, e.output);
      ArgumentErrors(ApplyStack(u.steps, e.input));
    }
  }

  /**
   * The type of a term is the most general one: every typing of its expressions that starts where `t`
   * ends is an instance of what the checker infers, by a substitution that absorbs the checker's steps.
   * And where no constraint can refuse, a term that has a typing is only ever refused for what it
   * leaves over.
   */
  lemma {:induction false} TermIsPrincipal(fuel: nat, t: Type, es: seq<Type>, s: Subst, ks: seq<Stack>, f: Fragment)
    requires t.Function? && TypeIn(t, f) && TypesIn(es, f) && NoShortcut(f) && f.uses != AnyUse
    requires Typing(s, es, ks) && SubStack(s, t.output) == ks[0]
    ensures var r := TermType(fuel, t, es);
            && (r.Typed? ==> SolvesAll(s, r.steps) && SubType(s, r.t) == Function(SubStack(s, t.input), ks[|es|]))
            && (r.Rejected? && Unconstrained(f) ==> LeavesOver(r))
    decreases |es|
  {
    if es != [] {
      assert SubType(s, es[0]) == Function(ks[0], ks[1]) && es[0] in es;
      OneExpression(fuel, t, es[0], s, f);
      var r := Extend(fuel, t, es[0]);
      if r.Typed? {
        assert TypesIn(es[1..], f) && Typing(s, es[1..], ks[1..]) by {
          forall k | 0 <= k < |es[1..]| ensures SubType(s, es[1..][k]) == Function(ks[1..][k], ks[1..][k + 1]) {
            assert SubType(s, es[k + 1]) == Function(ks[k + 1], ks[k + 2]);
          }
        }
        TermIsPrincipal(fuel, r.t, es[1..], s, ks[1..], f);
        var rest := TermType(fuel, r.t, es[1..]);
        if rest.Typed? { SolvesBoth(s, r.steps, rest.steps); }
      }
    }
  }

  // ----- what is inferred is a typing -----

  /** The two share no variable of any sort. */
  predicate Strange(a: Type, b: Type) {
    TypeVars(a) !! TypeVars(b) && TypeUses(a) !! TypeUses(b)
  }

  /** Each expression has variables of its own, as cloned types have. */
  ghost predicate Apart(t: Type, es: seq<Type>) {
    && (forall k | 0 <= k < |es| :: Strange(t, es[k]))
    && forall j, k | 0 <= j < k < |es| :: Strange(es[j], es[k])
  }

  lemma {:induction false} Untouched(steps: seq<Step>, t: Type, vs: set<Var>, us: set<nat>)
    requires Triangular(steps, vs) && Within(steps, us) && vs !! TypeVars(t) && us !! TypeUses(t)
    ensures ApplyType(steps, t) == t
  {
    if steps != [] {
      assert UsesOf(steps[0]) <= us;
      if steps[0].ChannelStep? { UnusedType(t, steps[0].n, steps[0].use); } else { StepTypeAbsent(t, steps[0]); }
      Untouched(steps[1..], t, vs - Target(steps[0]), us);
    }
  }

  predicate AllFit(es: seq<Type>, p: Payloads) {
    forall e | e in es :: TypeFits(e, p)
  }

  /** One expression: what is unified agrees, and nothing but the two is touched. */
  lemma ExtendsWell(fuel: nat, t: Type, e: Type, p: Payloads, f: Fragment)
    requires t.Function? && e.Function? && TypeIn(t, f) && TypeIn(e, f) && NoShortcut(f) && f.uses != AnyUse
    requires TypeFits(t, p) && TypeFits(e, p) && Extend(fuel, t, e).Typed?
    ensures var r := Extend(fuel, t, e);
            && r.t == Function(ApplyStack(r.steps, t.input), ApplyStack(r.steps, e.output)) && TypeIn(r.t, f)
            && ApplyStack(r.steps, t.output) == ApplyStack(r.steps, e.input)
            && KeepsFit(r.steps, p) && TypeFits(r.t, UnifyChannels.Applied(p, r.steps))
            && TypeVars(r.t) <= TypeVars(t) + TypeVars(e) && TypeUses(r.t) <= TypeUses(t) + TypeUses(e)
            && Triangular(r.steps, TypeVars(t) + TypeVars(e)) && Within(r.steps, TypeUses(t) + TypeUses(e))
  {
    var u, vs, us := VisitStacks(fuel, t.output, e.input).steps, TypeVars(t) + TypeVars(e), TypeUses(t) + TypeUses(e);
    ZeroOffsetStacks(fuel, t.output, e.input, f);
    StacksTriangular(fuel, t.output, e.input, f);
    StacksSound(fuel, t.output, e.input, p, f);
    StacksWithin(fuel, t.output, e.input);
    TriangularWiden(u, StackVars(t.output) + StackVars(e.input), vs);
    JoinWithin(u, StackUses(t.output) + StackUses(e.input), [], {}, us);
    assert u + [] == u;
    ApplyStackFacts(u, t.input, vs, f);
    ApplyStackFacts(u, e.output, vs, f);
    ApplyStackUses(u, t.input, us);
    ApplyStackUses(u, e.output, us);
  }

  /** The strangers to both are strangers to what comes of them. */
  lemma StaysApart(t: Type, es: seq<Type>, r: Type)
    requires es != [] && Apart(t, es) && TypeVars(r) <= TypeVars(t) + TypeVars(es[0]) && TypeUses(r) <= TypeUses(t) + TypeUses(es[0])
    ensures Apart(r, es[1..])
  {
    forall k | 0 <= k < |es[1..]| ensures Strange(r, es[1..][k]) {
      assert Strange(t, es[k + 1]) && Strange(es[0], es[k + 1]);
    }
  }

  /** Under the steps `u` the expressions take the row from where `t` ends to where `r` ends. */
  ghost predicate Seams(u: seq<Step>, t: Type, es: seq<Type>, r: Type, row: seq<Stack>)
    requires t.Function?
  {
    && |row| == |es| + 1 && row[0] == ApplyStack(u, t.output) && r == Function(ApplyStack(u, t.input), row[|es|])
    && forall k | 0 <= k < |es| :: ApplyType(u, es[k]) == Function(row[k], row[k + 1])
  }

  lemma SeamsJoin(u: seq<Step>, w: seq<Step>, t: Type, es: seq<Type>, m: Type, r: Type, rest: seq<Stack>) returns (row: seq<Stack>)
    requires t.Function? && m.Function? && AllFunctions(es) && es != [] && Seams(w, m, es[1..], r, rest)
    requires m == Function(ApplyStack(u, t.input), ApplyStack(u, es[0].output)) && ApplyStack(u, t.output) == ApplyStack(u, es[0].input)
    requires forall k | 0 < k < |es| :: ApplyType(u, es[k]) == es[k]
    ensures Seams(u + w, t, es, r, row)
  {
    row := [ApplyStack(u + w, t.output)] + rest;
    ApplyStackAppend(u, w, t.output);
    ApplyStackAppend(u, w, t.input);
    forall k | 0 <= k < |es| ensures ApplyType(u + w, es[k]) == Function(row[k], row[k + 1]) {
      ApplyAppend(u, w, es[k]);
      if k == 0 {
        assert es[0] in es && es[0] == Function(es[0].input, es[0].output);
        ApplyFunction(u, es[0].input, es[0].output);
        ApplyFunction(w, ApplyStack(u, es[0].input), ApplyStack(u, es[0].output));
      } else {
        assert es[1..][k - 1] == es[k];
      }
    }
  }

  /**
   * What the checker infers is a typing: annotated with the term's whole unifier, the output of each
   * expression is the input of the next, and the term's type leads from the first to the last.
   */
  lemma {:induction false} TermIsTyped(fuel: nat, t: Type, es: seq<Type>, p: Payloads, f: Fragment) returns (row: seq<Stack>)
    requires t.Function? && TypeIn(t, f) && TypesIn(es, f) && NoShortcut(f) && f.uses != AnyUse
    requires TypeFits(t, p) && AllFit(es, p) && Apart(t, es) && TermType(fuel, t, es).Typed?
    ensures Seams(TermType(fuel, t, es).steps, t, es, TermType(fuel, t, es).t, row)
    decreases |es|
  {
    if es == [] {
      row := [t.output];
    } else {
      var r := Extend(fuel, t, es[0]);
      assert es[0] in es && TypesIn(es[1..], f);
      ExtendsWell(fuel, t, es[0], p, f);
      forall k | 0 < k < |es| ensures ApplyType(r.steps, es[k]) == es[k] {
        assert Strange(t, es[k]) && Strange(es[0], es[k]);
        Untouched(r.steps, es[k], TypeVars(t) + TypeVars(es[0]), TypeUses(t) + TypeUses(es[0]));
      }
      forall e | e in es[1..] ensures TypeFits(e, UnifyChannels.Applied(p, r.steps)) {
        var k :| 0 < k < |es| && es[k] == e;
        assert e in es && ApplyType(r.steps, e) == e;
      }
      StaysApart(t, es, r.t);
      var rest := TermIsTyped(fuel, r.t, es[1..], UnifyChannels.Applied(p, r.steps), f);
      row := SeamsJoin(r.steps, TermType(fuel, r.t, es[1..]).steps, t, es, r.t, TermType(fuel, t, es).t, rest);
    }
  }
}
