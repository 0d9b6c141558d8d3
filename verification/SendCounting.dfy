/**
 * Repeating `1 !` counts: k sends in a row take a sender that can be used k times more than the one
 * they leave behind.
 */
module SendCounting {
  import opened StatickTypes
  import opened Unify
  import opened UnifierObject
  import opened TypeCloning
  import opened Application
  import opened Wrappers
  import opened UnifyChannels
  import UnifyFragments
  import opened UnifyTheorems

  /** The fresh variables of one `1 !`: of the number's type, and of the cloned type of `!`. */
  datatype Copy = Copy(number: nat, base: nat, payload: nat, channel: nat)

  function CopyTypes(copies: seq<Copy>): (es: seq<Type>)
    ensures AllFunctions(es)
  {
    if copies == [] then []
    else [NumberType(copies[0].number), SendType(copies[0].channel, copies[0].payload, copies[0].base)]
         + CopyTypes(copies[1..])
  }

  /** All stack variables differ, and all channel variables: the allocator counts them up. */
  predicate Distinct(copies: seq<Copy>, stacks: set<nat>, channels: set<nat>) {
    copies == [] ||
    var c := copies[0];
    && c.number !in stacks && c.base !in stacks && c.number != c.base && c.channel !in channels
    && Distinct(copies[1..], stacks + {c.number, c.base}, channels + {c.channel})
  }

  /** What takes a sender on `s` for `uses` more sends. */
  function SendsType(s: nat, v: nat, uses: nat): Type {
    Function(Push(Var(s), Sender(v, uses, Integer)), Push(Var(s), Sender(v, 0, Integer)))
  }

  lemma ApplyOne(step: Step, s: Stack)
    ensures ApplyStack([step], s) == StepStack(s, step)
  {
    assert [step][1..] == [];
  }

  lemma ApplyTwo(first: Step, second: Step, s: Stack)
    ensures ApplyStack([first, second], s) == StepStack(StepStack(s, first), second)
  {
    assert [first, second][1..] == [second];
    ApplyOne(second, StepStack(s, first));
  }

  lemma ApplyThree(first: Step, second: Step, third: Step, s: Stack)
    ensures ApplyStack([first, second, third], s) == StepStack(StepStack(StepStack(s, first), second), third)
  {
    assert [first, second, third][1..] == [second, third];
    ApplyTwo(second, third, StepStack(s, first));
  }

  lemma SenderStep(v: nat, uses: nat, x: Type, step: Step)
    ensures StepType(Sender(v, uses, x), step) ==
            Channel(StepUse(Variable(v, uses), step), Tx, StepType(x, step))
  {
  }

  lemma SenderIsInert(v: nat, uses: nat, x: Type, s: nat, n: nat, right: Stack)
    requires !x.Function? && !x.Channel?
    ensures CheckArguments(Push(Var(s), Sender(v, uses, x))) == None
    ensures Unconsumed(Push(Var(s), Sender(v, uses, x)), right) == {}
    ensures StackContainsStack(Push(Var(s), Sender(v, uses, x)), Var(n)) <==> s == n
    ensures AddConstraints(Push(Var(s), Sender(v, uses, x)), {}) == Push(Var(s), Sender(v, uses, x))
  {
    assert !TypeContainsStack(Sender(v, uses, x), Var(n));
    assert Unconsumed(Var(s), right) == {};
  }

  lemma VarsBind(s: nat, n: nat)
    requires s != n
    ensures BindStack(Var(s), Var(n)) == Ok([StackStep(s, Var(n))])
  {
    var none: set<StackConstraint> := {};
    assert !StackContainsStack(Var(n), Var(s));
    assert none + none == none;
    assert AddConstraints(Var(n), none) == Var(n);
    assert MissingStack(none, Var(n)) == {};
  }

  /** The first `1 !`, after nothing. */
  lemma FirstNumber(s: nat, n: nat, fuel: nat)
    requires s != n && fuel >= 1
    ensures Extend(fuel, Function(Var(s), Var(s)), NumberType(n)) == Typed(NumberType(n), [StackStep(s, Var(n))])
  {
    var step := StackStep(s, Var(n));
    VarsBind(s, n);
    ApplyOne(step, Var(n));
    ApplyOne(step, Var(s));
    ApplyOne(step, NumberType(n).output);
  }

  lemma PayloadIsInteger(g: nat, fuel: nat)
    requires fuel >= 2
    ensures VisitTypes(fuel, Integer, Generic(g, {})) == Ok([TypeStep(g, Integer)])
  {
    assert VisitTypes(fuel - 1, Generic(g, {}), Integer) == BindType(Generic(g, {}), Integer);
    assert Missing({}, Integer) == {};
  }

  lemma FirstSend(n: nat, w: nat, g: nat, y: nat, fuel: nat)
    requires n != y && fuel >= 3
    ensures var r := Extend(fuel, NumberType(n), SendType(w, g, y));
            r.Typed? && r.t == SendsType(y, w, 1)
  {
    var x := Generic(g, {});
    var inner, bound := Push(Var(y), Sender(w, 1, x)), Push(Var(y), Sender(w, 1, Integer));
    var t, k := TypeStep(g, Integer), StackStep(n, bound);
    PayloadIsInteger(g, fuel - 1);
    ApplyOne(t, Var(n));
    ApplyOne(t, inner);
    SenderStep(w, 1, x, t);
    SenderIsInert(w, 1, Integer, y, n, Var(n));
    assert MissingStack({}, bound) == {};
    assert VisitStacks(fuel - 1, Var(n), bound) == Ok([k]);
    assert [t] + [k] == [t, k];
    assert VisitStacks(fuel, Push(Var(n), Integer), Push(inner, x)) == Ok([t, k]);
    ApplyTwo(t, k, Var(n));
    ApplyTwo(t, k, Push(inner, x));
    ApplyTwo(t, k, Push(Var(y), Sender(w, 0, x)));
    SenderStep(w, 0, x, t);
    SenderStep(w, 0, Integer, k);
    SenderStep(w, 1, Integer, k);
    assert StepStack(StepStack(Push(inner, x), t), k) == Push(bound, Integer);
    assert CheckArguments(Push(bound, Integer)) == CheckArguments(bound);
    SenderIsInert(w, 1, Integer, y, n, Push(Var(y), Sender(w, 0, Integer)));
  }

  /** A later number leaves the count alone. */
  lemma NextNumber(s: nat, v: nat, uses: nat, n: nat, fuel: nat)
    requires s != n && fuel >= 2
    ensures var r := Extend(fuel, SendsType(s, v, uses), NumberType(n));
            r.Typed? && r.t == Function(Push(Var(s), Sender(v, uses, Integer)),
                                        Push(Push(Var(s), Sender(v, 0, Integer)), Integer))
  {
    var out, i := Push(Var(s), Sender(v, 0, Integer)), Push(Var(s), Sender(v, uses, Integer));
    var step := StackStep(n, out);
    SenderIsInert(v, 0, Integer, s, n, out);
    assert MissingStack({}, out) == {};
    assert VisitStacks(fuel - 1, Var(n), out) == Ok([step]);
    ApplyOne(step, Var(n));
    ApplyOne(step, i);
    ApplyOne(step, Push(Var(n), Integer));
    SenderStep(v, uses, Integer, step);
    SenderIsInert(v, uses, Integer, s, n, Push(out, Integer));
  }

  /** A later send moves the count to its own channel variable and adds one. */
  lemma NextSend(s: nat, v: nat, uses: nat, w: nat, g: nat, y: nat, fuel: nat)
    requires s != y && v != w && fuel >= 4
    ensures var before := Function(Push(Var(s), Sender(v, uses, Integer)),
                                   Push(Push(Var(s), Sender(v, 0, Integer)), Integer));
            var r := Extend(fuel, before, SendType(w, g, y));
            r.Typed? && r.t == SendsType(y, w, uses + 1)
  {
    var x := Generic(g, {});
    var i, out := Push(Var(s), Sender(v, uses, Integer)), Push(Var(s), Sender(v, 0, Integer));
    var inner, bound := Push(Var(y), Sender(w, 1, x)), Push(Var(y), Sender(w, 1, Integer));
    var t, c, k := TypeStep(g, Integer), ChannelStep(v, Variable(w, 1)), StackStep(s, Var(y));
    PayloadIsInteger(g, fuel - 1);
    ApplyOne(t, out);
    ApplyOne(t, inner);
    SenderStep(w, 1, x, t);
    SenderStep(v, 0, Integer, t);
    assert VisitTypes(fuel - 3, Integer, Integer) == Ok([]);
    assert [c] + [] == [c];
    assert VisitTypes(fuel - 2, Sender(v, 0, Integer), Sender(w, 1, Integer)) == Ok([c]);
    ApplyOne(c, Var(s));
    ApplyOne(c, Var(y));
    VarsBind(s, y);
    assert [c] + [k] == [c, k];
    assert VisitStacks(fuel - 1, out, bound) == Ok([c, k]);
    assert [t] + [c, k] == [t, c, k];
    assert VisitStacks(fuel, Push(out, Integer), Push(inner, x)) == Ok([t, c, k]);
    ThreeOnSender(t, c, k, s, v, uses, Integer);
    ThreeOnSender(t, c, k, y, w, 0, x);
    ThreeOnSender(t, c, k, y, w, 1, x);
    ApplyThree(t, c, k, Push(inner, x));
    ApplyThree(t, c, k, inner);
    assert StepStack(StepStack(StepStack(Push(inner, x), t), c), k) == Push(ApplyStack([t, c, k], inner), Integer);
    var done := Push(Var(y), Sender(w, 0, Integer));
    SenderIsInert(w, 1, Integer, y, s, done);
    assert CheckArguments(Push(bound, Integer)) == CheckArguments(bound);
    SenderIsInert(w, uses + 1, Integer, y, s, done);
  }

  lemma ThreeOnSender(t: Step, c: Step, k: Step, s: nat, v: nat, uses: nat, x: Type)
    requires t.TypeStep? && t.t == Integer && c.ChannelStep? && k.StackStep?
    requires x == Integer || (x.Generic? && x.n == t.n)
    ensures ApplyStack([t, c, k], Push(Var(s), Sender(v, uses, x))) ==
            Push(if s == k.n then k.s else Var(s), Channel(StepUse(Variable(v, uses), c), Tx, Integer))
  {
    var u := StepUse(Variable(v, uses), c);
    ApplyThree(t, c, k, Push(Var(s), Sender(v, uses, x)));
    SenderStep(v, uses, x, t);
    SenderStep(v, uses, Integer, c);
    assert StepType(Channel(u, Tx, Integer), k) == Channel(u, Tx, Integer);
    assert StepStack(Push(Var(s), Sender(v, uses, x)), t) == Push(Var(s), Sender(v, uses, Integer));
    assert StepStack(Push(Var(s), Sender(v, uses, Integer)), c) == Push(Var(s), Channel(u, Tx, Integer));
  }

  /** From `done` sends on, every further copy adds one. */
  lemma {:induction false} CountOn(
    s: nat, v: nat, done: nat, copies: seq<Copy>, stacks: set<nat>, channels: set<nat>, fuel: nat)
    requires fuel >= 4 && s in stacks && v in channels && Distinct(copies, stacks, channels)
    ensures var r := TermType(fuel, SendsType(s, v, done), CopyTypes(copies));
            && r.Typed?
            && (copies == [] ==> r.t == SendsType(s, v, done))
            && (copies != [] ==>
                  var last := copies[|copies| - 1];
                  r.t == SendsType(last.base, last.channel, done + |copies|))
    decreases |copies|
  {
    if copies != [] {
      var c, es := copies[0], CopyTypes(copies);
      NextNumber(s, v, done, c.number, fuel);
      NextSend(s, v, done, c.channel, c.payload, c.base, fuel);
      assert es[1..][1..] == CopyTypes(copies[1..]);
      CountOn(c.base, c.channel, done + 1, copies[1..],
              stacks + {c.number, c.base}, channels + {c.channel}, fuel);
    }
  }

  /** The type of `1 !` written k times over, for every k from one on. */
  lemma SendsAreCounted(s: nat, copies: seq<Copy>, fuel: nat)
    requires fuel >= 4 && copies != [] && Distinct(copies, {s}, {})
    ensures var r := TermType(fuel, Function(Var(s), Var(s)), CopyTypes(copies));
            var last := copies[|copies| - 1];
            r.Typed? &&
            r.t == Function(Push(Var(last.base), Sender(last.channel, |copies|, Integer)),
                            Push(Var(last.base), Sender(last.channel, 0, Integer)))
  {
    var c, es := copies[0], CopyTypes(copies);
    FirstNumber(s, c.number, fuel);
    FirstSend(c.number, c.channel, c.payload, c.base, fuel);
    assert es[1..][1..] == CopyTypes(copies[1..]);
    CountOn(c.base, c.channel, 1, copies[1..], {s} + {c.number, c.base}, {} + {c.channel}, fuel);
  }

  // ----- the allocator makes the copies distinct -----

  /** The copies' variables were handed out before `lo` stacks and `clo` channels. */
  predicate Earlier(copies: seq<Copy>, lo: nat, clo: nat) {
    forall c | c in copies :: c.number < lo && c.base < lo && c.channel < clo
  }

  lemma {:induction false} DistinctMore(copies: seq<Copy>, c: Copy, stacks: set<nat>, channels: set<nat>, lo: nat, clo: nat)
    requires Distinct(copies, stacks, channels) && Earlier(copies, lo, clo)
    requires (forall n | n in stacks :: n < lo) && (forall n | n in channels :: n < clo)
    requires c.number >= lo && c.base >= lo && c.number != c.base && c.channel >= clo
    ensures Distinct(copies + [c], stacks, channels) && CopyTypes(copies + [c]) == CopyTypes(copies) + CopyTypes([c])
    decreases |copies|
  {
    if copies == [] {
      assert [] + [c] == [c];
    } else {
      var d := copies[0];
      assert (copies + [c])[0] == d && (copies + [c])[1..] == copies[1..] + [c];
      DistinctMore(copies[1..], c, stacks + {d.number, d.base}, channels + {d.channel}, lo, clo);
    }
  }

  /** The types of `1 !` written k times: a new number, and a clone of the send's type, for each. */
  method RepeatSends(alloc: TypeAllocator, send: Type, k: nat, ghost v: nat, ghost g: nat, ghost y: nat)
    returns (s: nat, es: seq<Type>, ghost copies: seq<Copy>)
    requires send == SendType(v, g, y)
    modifies alloc
    ensures |copies| == k && es == CopyTypes(copies) && Distinct(copies, {s}, {})
  {
    s := alloc.NextStack();
    es, copies := [], [];
    for i := 0 to k
      invariant |copies| == i && es == CopyTypes(copies) && Distinct(copies, {s}, {})
      invariant s < alloc.stacks && Earlier(copies, alloc.stacks, alloc.channels)
    {
      ghost var lo, clo := alloc.stacks, alloc.channels;
      var number := alloc.NextStack();
      ghost var now := alloc.Now();
      ghost var r: Renaming;
      var clone: Type;
      clone, r := alloc.DeepClone(send);
      CloneOfSend(v, g, y, r);
      ghost var c := Copy(number, r.stacks[y].n, r.types[g].n, r.channels[v]);
      assert now.stacks <= c.base < alloc.stacks && now.channels <= c.channel < alloc.channels;
      DistinctMore(copies, c, {s}, {}, lo, clo);
      assert CopyTypes([c][1..]) == [];
      assert CopyTypes([c]) == [NumberType(number), clone];
      es, copies := es + [NumberType(number), clone], copies + [c];
    }
  }

  /** So a term of k sends of numbers takes a sender with k uses and leaves it with none of them. */
  method CountSends(alloc: TypeAllocator, send: Type, k: nat, ghost v: nat, ghost g: nat, ghost y: nat)
    returns (error: Option<TypeError>, t: Type)
    requires send == SendType(v, g, y) && k >= 1
    modifies alloc
    ensures error == None
    ensures exists s, w :: t == SendsType(s, w, k)
  {
    ghost var copies: seq<Copy>;
    var s: nat, es: seq<Type>;
    s, es, copies := RepeatSends(alloc, send, k, v, g, y);
    SendsAreCounted(s, copies, 4);
    var unifier := new Unifier();
    error, t := VisitTerm(Var(s), es, unifier, 4);
    ghost var last := copies[|copies| - 1];
    assert t == SendsType(last.base, last.channel, k);
  }

  /** Applying `!` to a sender and a number is a unification with channel variables; its answer is principal. */
  lemma SendIsPrincipal(s: nat, v: nat, w: nat, g: nat, y: nat, fuel: nat)
    requires v != w && s != y && fuel >= 4
    ensures var stack := Push(Push(Var(s), Sender(v, 0, Integer)), Integer);
            VisitStacks(fuel, stack, SendType(w, g, y).input).Ok? &&
            PrincipalStacks(stack, SendType(w, g, y).input, VisitStacks(fuel, stack, SendType(w, g, y).input))
  {
    var x := Generic(g, {});
    var a, b := Push(Push(Var(s), Sender(v, 0, Integer)), Integer), SendType(w, g, y).input;
    NextSend(s, v, 0, w, g, y, fuel);
    var p: Payloads := n => if n == v then Integer else x;
    assert TypeFits(Sender(v, 0, Integer), p) && TypeFits(Sender(w, 1, x), p);
    assert StackFits(a.base, p) && StackFits(b.base, p);
    assert StackFits(a, p) && StackFits(b, p);
    SendIsCareful(s, v, w, g, y, fuel);
    var f := UnifyFragments.Fragment({}, {}, false, UnifyFragments.AnyUse);
    assert UnifyFragments.TypeIn(x, f) && UnifyFragments.TypeIn(Integer, f);
    assert UnifyFragments.TypeIn(Sender(w, 1, x), f) && UnifyFragments.TypeIn(Sender(v, 0, Integer), f);
    assert UnifyFragments.StackIn(a.base, f) && UnifyFragments.StackIn(b.base, f);
    PrincipalStackRun(a, b, f, fuel);
  }

  lemma SendIsCareful(s: nat, v: nat, w: nat, g: nat, y: nat, fuel: nat)
    requires v != w && s != y && fuel >= 4
    ensures CarefulStacks(fuel, Push(Push(Var(s), Sender(v, 0, Integer)), Integer), SendType(w, g, y).input)
  {
    var x, t := Generic(g, {}), TypeStep(g, Integer);
    var a, b := Push(Var(s), Sender(v, 0, Integer)), Push(Var(y), Sender(w, 1, x));
    PayloadIsInteger(g, fuel - 1);
    ApplyOne(t, a);
    ApplyOne(t, b);
    SenderStep(v, 0, Integer, t);
    SenderStep(w, 1, x, t);
    assert CarefulTypes(fuel - 1, Integer, x);
    var c := Push(Var(y), Sender(w, 1, Integer));
    assert ApplyStack([t], b) == c && ApplyStack([t], a) == a;
    assert CarefulTypes(fuel - 2, Sender(v, 0, Integer), Sender(w, 1, Integer));
    var u := VisitTypes(fuel - 2, Sender(v, 0, Integer), Sender(w, 1, Integer));
    if u.Ok? {
      KeepsVar(u.steps, s, Sender(v, 0, Integer), Sender(w, 1, Integer), fuel - 2);
    }
    assert CarefulStacks(fuel - 1, a, c);
  }

  /** Unifying two senders touches no stack variable. */
  lemma KeepsVar(steps: seq<Step>, s: nat, a: Type, b: Type, fuel: nat)
    requires VisitTypes(fuel, a, b) == Ok(steps) && a.Channel? && b.Channel? && a.payload == b.payload == Integer
    ensures ApplyStack(steps, Var(s)) == Var(s)
  {
    assert VisitTypes(fuel - 1, Integer, Integer).Ok? ==> VisitTypes(fuel - 1, Integer, Integer) == Ok([]);
    if steps != [] { ApplyOne(steps[0], Var(s)); }
  }
}
