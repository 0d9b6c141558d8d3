/**
 * The allocator of fresh variables, and `deep_clone`: a copy of a type under an injective renaming
 * into variables that no earlier type can mention.
 */
module TypeCloning {
  import opened StatickTypes

  // ----- the collectors; a variable is listed once per occurrence -----

  function GenericsOf(t: Type): seq<nat> {
    match t
    case Channel(_, _, c) => GenericsOf(c)
    case Generic(n, _) => [n]
    case Function(i, o) => StackGenericsOf(i) + StackGenericsOf(o)
    case _ => []
  }

  function StackGenericsOf(s: Stack): seq<nat> {
    match s
    case Push(b, t) => StackGenericsOf(b) + GenericsOf(t)
    case _ => []
  }

  function StacksOf(t: Type): seq<nat> {
    match t
    case Channel(_, _, c) => StacksOf(c)
    case Function(i, o) => StackStacksOf(i) + StackStacksOf(o)
    case _ => []
  }

  function StackStacksOf(s: Stack): seq<nat> {
    match s
    case Bottom => []
    case StackGeneric(n, _) => [n]
    case Push(b, t) => StackStacksOf(b) + StacksOf(t)
  }

  function ChannelsOf(t: Type): set<nat> {
    match t
    case Channel(u, _, c) => (if u.Variable? then {u.name} else {}) + ChannelsOf(c)
    case Function(i, o) => StackChannelsOf(i) + StackChannelsOf(o)
    case _ => {}
  }

  function StackChannelsOf(s: Stack): set<nat> {
    match s
    case Push(b, t) => StackChannelsOf(b) + ChannelsOf(t)
    case _ => {}
  }

  /** Later occurrences overwrite earlier ones; on a stack the top is visited before the base. */
  function ConstraintsOf(t: Type, m: map<nat, set<Constraint>>): map<nat, set<Constraint>> {
    match t
    case Channel(_, _, c) => ConstraintsOf(c, m)
    case Generic(n, cs) => m[n := cs]
    case Function(i, o) => StackConstraintsIn(o, StackConstraintsIn(i, m))
    case _ => m
  }

  function StackConstraintsIn(s: Stack, m: map<nat, set<Constraint>>): map<nat, set<Constraint>> {
    match s
    case Push(b, t) => StackConstraintsIn(b, ConstraintsOf(t, m))
    case _ => m
  }

  function BaseConstraintsOf(t: Type, m: map<nat, set<StackConstraint>>): map<nat, set<StackConstraint>> {
    match t
    case Channel(_, _, c) => BaseConstraintsOf(c, m)
    case Function(i, o) => StackBaseConstraintsOf(o, StackBaseConstraintsOf(i, m))
    case _ => m
  }

  function StackBaseConstraintsOf(s: Stack, m: map<nat, set<StackConstraint>>): map<nat, set<StackConstraint>> {
    match s
    case Bottom => m
    case StackGeneric(n, cs) => m[n := cs]
    case Push(b, t) => StackBaseConstraintsOf(b, BaseConstraintsOf(t, m))
  }

  // ----- renamings -----

  datatype Renaming = Renaming(types: map<nat, Type>, stacks: map<nat, Stack>, channels: map<nat, nat>)

  predicate Covers(r: Renaming, t: Type) {
    && (forall n | n in GenericsOf(t) :: n in r.types)
    && (forall n | n in StacksOf(t) :: n in r.stacks)
    && ChannelsOf(t) <= r.channels.Keys
  }

  predicate CoversStack(r: Renaming, s: Stack) {
    && (forall n | n in StackGenericsOf(s) :: n in r.types)
    && (forall n | n in StackStacksOf(s) :: n in r.stacks)
    && StackChannelsOf(s) <= r.channels.Keys
  }

  function RenameUse(r: Renaming, u: ChannelUse): ChannelUse
    requires u.Variable? ==> u.name in r.channels
  {
    if u.Variable? then Variable(r.channels[u.name], u.offset) else u
  }

  function RenameType(r: Renaming, t: Type): Type
    requires Covers(r, t)
  {
    match t
    case Channel(u, d, c) => Channel(RenameUse(r, u), d, RenameType(r, c))
    case Generic(n, _) => assert n in GenericsOf(t); r.types[n]
    case Function(i, o) => Function(RenameStack(r, i), RenameStack(r, o))
    case _ => t
  }

  function RenameStack(r: Renaming, s: Stack): Stack
    requires CoversStack(r, s)
  {
    match s
    case Bottom => Bottom
    case StackGeneric(n, _) => assert n in StackStacksOf(s); r.stacks[n]
    case Push(b, t) => Push(RenameStack(r, b), RenameType(r, t))
  }

  /** The counters an allocator has reached. */
  datatype Counters = Counters(generics: nat, stacks: nat, channels: nat, repeats: nat)

  /** Every variable of `t` was allocated before `c`. */
  predicate Before(t: Type, c: Counters) {
    && (forall n | n in GenericsOf(t) :: n < c.generics)
    && (forall n | n in StacksOf(t) :: n < c.stacks)
    && (forall n | n in ChannelsOf(t) :: n < c.channels)
  }

  /** Distinct variables go to distinct variables, all from `lo` on and before `hi`. */
  ghost predicate FreshTypes(m: map<nat, Type>, lo: nat, hi: nat) {
    && (forall n | n in m :: m[n].Generic? && lo <= m[n].n < hi)
    && (forall k, n | k in m && n in m && k != n :: m[k].n != m[n].n)
  }

  ghost predicate FreshStacks(m: map<nat, Stack>, lo: nat, hi: nat) {
    && (forall n | n in m :: m[n].StackGeneric? && lo <= m[n].n < hi)
    && (forall k, n | k in m && n in m && k != n :: m[k].n != m[n].n)
  }

  ghost predicate FreshChannels(m: map<nat, nat>, lo: nat, hi: nat) {
    && (forall n | n in m :: lo <= m[n] < hi)
    && (forall k, n | k in m && n in m && k != n :: m[k] != m[n])
  }

  ghost predicate Fresh(r: Renaming, lo: Counters, hi: Counters) {
    && FreshTypes(r.types, lo.generics, hi.generics)
    && FreshStacks(r.stacks, lo.stacks, hi.stacks)
    && FreshChannels(r.channels, lo.channels, hi.channels)
  }

  /** The renaming gives each variable the constraints it is recorded with. */
  ghost predicate KeepsTypes(m: map<nat, Type>, cs: map<nat, set<Constraint>>) {
    forall n | n in m :: m[n].Generic? && n in cs && m[n].constraints == cs[n]
  }

  ghost predicate KeepsStacks(m: map<nat, Stack>, ss: map<nat, set<StackConstraint>>) {
    forall n | n in m :: m[n].StackGeneric? && n in ss && m[n].stackConstraints == ss[n]
  }

  ghost predicate KeepsConstraints(r: Renaming, t: Type) {
    KeepsTypes(r.types, ConstraintsOf(t, map[])) && KeepsStacks(r.stacks, BaseConstraintsOf(t, map[]))
  }

  class TypeAllocator {
    var generics: nat
    var stacks: nat
    var channels: nat
    var repeats: nat

    constructor ()
      ensures Now() == Counters(0, 0, 0, 0)
    {
      generics, stacks, channels, repeats := 0, 0, 0, 0;
    }

    function Now(): Counters
      reads this
    {
      Counters(generics, stacks, channels, repeats)
    }

    method NextGeneric() returns (n: nat)
      modifies this
      ensures n == old(generics) && Now() == old(Now()).(generics := n + 1)
    {
      n := generics;
      generics := n + 1;
    }

    method NextStack() returns (n: nat)
      modifies this
      ensures n == old(stacks) && Now() == old(Now()).(stacks := n + 1)
    {
      n := stacks;
      stacks := n + 1;
    }

    method NextChannel() returns (n: nat)
      modifies this
      ensures n == old(channels) && Now() == old(Now()).(channels := n + 1)
    {
      n := channels;
      channels := n + 1;
    }

    /** Occurrences are renamed one by one: a repeated variable takes a new name each time. */
    method RenameGenerics(t: Type) returns (m: map<nat, Type>)
      modifies this
      ensures Now() == old(Now()).(generics := generics) && old(generics) <= generics
      ensures m.Keys == set n | n in GenericsOf(t)
      ensures FreshTypes(m, old(generics), generics)
      ensures KeepsTypes(m, ConstraintsOf(t, map[]))
    {
      var constraints := ConstraintsOf(t, map[]);
      var gs := GenericsOf(t);
      m := map[];
      ConstraintKeys(t, map[]);
      for k := 0 to |gs|
        invariant Now() == old(Now()).(generics := generics) && old(generics) <= generics
        invariant m.Keys == set n | n in gs[..k]
        invariant FreshTypes(m, old(generics), generics)
        invariant KeepsTypes(m, constraints)
      {
        var f := NextGeneric();
        assert gs[k] in gs;
        m := m[gs[k] := Generic(f, constraints[gs[k]])];
        assert gs[..k + 1] == gs[..k] + [gs[k]];
      }
      assert gs[..|gs|] == gs;
    }

    method RenameStacks(t: Type) returns (m: map<nat, Stack>)
      modifies this
      ensures Now() == old(Now()).(stacks := stacks) && old(stacks) <= stacks
      ensures m.Keys == set n | n in StacksOf(t)
      ensures FreshStacks(m, old(stacks), stacks)
      ensures KeepsStacks(m, BaseConstraintsOf(t, map[]))
    {
      var constraints := BaseConstraintsOf(t, map[]);
      var ss := StacksOf(t);
      m := map[];
      BaseConstraintKeys(t, map[]);
      for k := 0 to |ss|
        invariant Now() == old(Now()).(stacks := stacks) && old(stacks) <= stacks
        invariant m.Keys == set n | n in ss[..k]
        invariant FreshStacks(m, old(stacks), stacks)
        invariant KeepsStacks(m, constraints)
      {
        assert ss[k] in ss;
        var c := if ss[k] in constraints then constraints[ss[k]] else {};
        var f := NextStack();
        m := m[ss[k] := StackGeneric(f, c)];
        assert ss[..k + 1] == ss[..k] + [ss[k]];
      }
      assert ss[..|ss|] == ss;
    }

    /** The channel variables form a set: they are renamed in no particular order. */
    method RenameChannels(t: Type) returns (m: map<nat, nat>)
      modifies this
      ensures Now() == old(Now()).(channels := channels) && old(channels) <= channels
      ensures m.Keys == ChannelsOf(t)
      ensures FreshChannels(m, old(channels), channels)
    {
      var rest := ChannelsOf(t);
      m := map[];
      while rest != {}
        invariant Now() == old(Now()).(channels := channels) && old(channels) <= channels
        invariant rest <= ChannelsOf(t) && m.Keys == ChannelsOf(t) - rest
        invariant FreshChannels(m, old(channels), channels)
        decreases rest
      {
        var v :| v in rest;
        var n := NextChannel();
        m := m[v := n];
        rest := rest - {v};
      }
    }

    method DeepClone(t: Type) returns (clone: Type, ghost r: Renaming)
      modifies this
      ensures Covers(r, t) && clone == RenameType(r, t)
      ensures Fresh(r, old(Now()), Now()) && KeepsConstraints(r, t)
      ensures repeats == old(repeats)
    {
      var types := RenameGenerics(t);
      var stacks := RenameStacks(t);
      var channels := RenameChannels(t);
      var visitor := Renaming(types, stacks, channels);
      r := visitor;
      clone := RenameType(visitor, t);
    }
  }

  // ----- what the maps of constraints hold -----

  lemma {:induction false} ConstraintKeys(t: Type, m: map<nat, set<Constraint>>)
    ensures ConstraintsOf(t, m).Keys == m.Keys + set n | n in GenericsOf(t)
  {
    match t
    case Channel(_, _, c) => ConstraintKeys(c, m);
    case Function(i, o) =>
      StackConstraintKeys(i, m);
      StackConstraintKeys(o, StackConstraintsIn(i, m));
    case _ =>
  }

  lemma {:induction false} StackConstraintKeys(s: Stack, m: map<nat, set<Constraint>>)
    ensures StackConstraintsIn(s, m).Keys == m.Keys + set n | n in StackGenericsOf(s)
  {
    match s
    case Push(b, t) =>
      ConstraintKeys(t, m);
      StackConstraintKeys(b, ConstraintsOf(t, m));
    case _ =>
  }

  lemma {:induction false} BaseConstraintKeys(t: Type, m: map<nat, set<StackConstraint>>)
    ensures BaseConstraintsOf(t, m).Keys == m.Keys + set n | n in StacksOf(t)
  {
    match t
    case Channel(_, _, c) => BaseConstraintKeys(c, m);
    case Function(i, o) =>
      StackBaseConstraintKeys(i, m);
      StackBaseConstraintKeys(o, StackBaseConstraintsOf(i, m));
    case _ =>
  }

  lemma {:induction false} StackBaseConstraintKeys(s: Stack, m: map<nat, set<StackConstraint>>)
    ensures StackBaseConstraintsOf(s, m).Keys == m.Keys + set n | n in StackStacksOf(s)
  {
    match s
    case Push(b, t) =>
      BaseConstraintKeys(t, m);
      StackBaseConstraintKeys(b, BaseConstraintsOf(t, m));
    case _ =>
  }

  // ----- a clone is a variant of the original, with variables of its own -----

  /** Each variable carries the same constraints at all its occurrences. */
  predicate Consistent(t: Type, cs: map<nat, set<Constraint>>, ss: map<nat, set<StackConstraint>>) {
    match t
    case Channel(_, _, c) => Consistent(c, cs, ss)
    case Generic(n, own) => n in cs && cs[n] == own
    case Function(i, o) => ConsistentStack(i, cs, ss) && ConsistentStack(o, cs, ss)
    case _ => true
  }

  predicate ConsistentStack(s: Stack, cs: map<nat, set<Constraint>>, ss: map<nat, set<StackConstraint>>) {
    match s
    case Bottom => true
    case StackGeneric(n, own) => n in ss && ss[n] == own
    case Push(b, t) => ConsistentStack(b, cs, ss) && Consistent(t, cs, ss)
  }

  ghost predicate Within<K, V>(m: map<K, V>, n: map<K, V>) {
    forall k | k in m :: k in n && m[k] == n[k]
  }

  lemma {:induction false} ConsistentMaps(
    t: Type, cs: map<nat, set<Constraint>>, ss: map<nat, set<StackConstraint>>,
    m: map<nat, set<Constraint>>, k: map<nat, set<StackConstraint>>)
    requires Consistent(t, cs, ss) && Within(m, cs) && Within(k, ss)
    ensures Within(ConstraintsOf(t, m), cs) && Within(BaseConstraintsOf(t, k), ss)
  {
    match t
    case Channel(_, _, c) => ConsistentMaps(c, cs, ss, m, k);
    case Function(i, o) =>
      ConsistentStackMaps(i, cs, ss, m, k);
      ConsistentStackMaps(o, cs, ss, StackConstraintsIn(i, m), StackBaseConstraintsOf(i, k));
    case _ =>
  }

  lemma {:induction false} ConsistentStackMaps(
    s: Stack, cs: map<nat, set<Constraint>>, ss: map<nat, set<StackConstraint>>,
    m: map<nat, set<Constraint>>, k: map<nat, set<StackConstraint>>)
    requires ConsistentStack(s, cs, ss) && Within(m, cs) && Within(k, ss)
    ensures Within(StackConstraintsIn(s, m), cs) && Within(StackBaseConstraintsOf(s, k), ss)
  {
    match s
    case Push(b, t) =>
      ConsistentMaps(t, cs, ss, m, k);
      ConsistentStackMaps(b, cs, ss, ConstraintsOf(t, m), BaseConstraintsOf(t, k));
    case _ =>
  }

  /** `back` undoes `r`, restoring names and constraints. */
  ghost predicate Undoes(
    back: Renaming, r: Renaming, cs: map<nat, set<Constraint>>, ss: map<nat, set<StackConstraint>>)
  {
    && (forall n | n in r.types && n in cs ::
          r.types[n].Generic? && r.types[n].n in back.types && back.types[r.types[n].n] == Generic(n, cs[n]))
    && (forall n | n in r.stacks && n in ss ::
          r.stacks[n].StackGeneric? && r.stacks[n].n in back.stacks &&
          back.stacks[r.stacks[n].n] == StackGeneric(n, ss[n]))
    && (forall n | n in r.channels :: r.channels[n] in back.channels && back.channels[r.channels[n]] == n)
  }

  lemma {:induction false} UndoneType(
    t: Type, r: Renaming, back: Renaming, cs: map<nat, set<Constraint>>, ss: map<nat, set<StackConstraint>>)
    requires Consistent(t, cs, ss) && Covers(r, t) && Undoes(back, r, cs, ss)
    ensures Covers(back, RenameType(r, t)) && RenameType(back, RenameType(r, t)) == t
  {
    match t
    case Channel(u, d, c) => UndoneType(c, r, back, cs, ss);
    case Generic(n, _) => assert n in GenericsOf(t);
    case Function(i, o) =>
      UndoneStack(i, r, back, cs, ss);
      UndoneStack(o, r, back, cs, ss);
    case _ =>
  }

  lemma {:induction false} UndoneStack(
    s: Stack, r: Renaming, back: Renaming, cs: map<nat, set<Constraint>>, ss: map<nat, set<StackConstraint>>)
    requires ConsistentStack(s, cs, ss) && CoversStack(r, s) && Undoes(back, r, cs, ss)
    ensures CoversStack(back, RenameStack(r, s)) && RenameStack(back, RenameStack(r, s)) == s
  {
    match s
    case Push(b, t) =>
      UndoneStack(b, r, back, cs, ss);
      UndoneType(t, r, back, cs, ss);
    case StackGeneric(n, _) => assert n in StackStacksOf(s);
    case _ =>
  }

  ghost function BackTypes(m: map<nat, Type>, cs: map<nat, set<Constraint>>, lo: nat, hi: nat): (b: map<nat, Type>)
    requires FreshTypes(m, lo, hi)
    ensures forall n | n in m && n in cs :: m[n].n in b && b[m[n].n] == Generic(n, cs[n])
  {
    map n | n in m && n in cs :: m[n].n := Generic(n, cs[n])
  }

  ghost function BackStacks(m: map<nat, Stack>, ss: map<nat, set<StackConstraint>>, lo: nat, hi: nat): (b: map<nat, Stack>)
    requires FreshStacks(m, lo, hi)
    ensures forall n | n in m && n in ss :: m[n].n in b && b[m[n].n] == StackGeneric(n, ss[n])
  {
    map n | n in m && n in ss :: m[n].n := StackGeneric(n, ss[n])
  }

  ghost function BackChannels(m: map<nat, nat>, lo: nat, hi: nat): (b: map<nat, nat>)
    requires FreshChannels(m, lo, hi)
    ensures forall n | n in m :: m[n] in b && b[m[n]] == n
  {
    map n | n in m :: m[n] := n
  }

  /** What `DeepClone` returns can be renamed back to the original: nothing was merged or lost. */
  lemma CloneIsVariant(
    t: Type, r: Renaming, lo: Counters, hi: Counters, cs: map<nat, set<Constraint>>,
    ss: map<nat, set<StackConstraint>>) returns (back: Renaming)
    requires Covers(r, t) && Fresh(r, lo, hi) && KeepsConstraints(r, t) && Consistent(t, cs, ss)
    ensures Covers(back, RenameType(r, t)) && RenameType(back, RenameType(r, t)) == t
  {
    back := Renaming(BackTypes(r.types, cs, lo.generics, hi.generics),
                     BackStacks(r.stacks, ss, lo.stacks, hi.stacks),
                     BackChannels(r.channels, lo.channels, hi.channels));
    UndoneType(t, r, back, cs, ss);
  }

  /**
   * `n` is last met with `c` in `t`: outputs come after inputs, and what lies below on a stack comes
   * after what lies on top of it.
   */
  predicate LastMet(t: Type, n: nat, c: set<Constraint>) {
    match t
    case Channel(_, _, p) => LastMet(p, n, c)
    case Generic(m, cs) => m == n && cs == c
    case Function(i, o) => LastMetOn(o, n, c) || (n !in StackGenericsOf(o) && LastMetOn(i, n, c))
    case _ => false
  }

  predicate LastMetOn(s: Stack, n: nat, c: set<Constraint>) {
    match s
    case Push(b, t) => LastMetOn(b, n, c) || (n !in StackGenericsOf(b) && LastMet(t, n, c))
    case _ => false
  }

  predicate BaseLastMet(t: Type, n: nat, c: set<StackConstraint>) {
    match t
    case Channel(_, _, p) => BaseLastMet(p, n, c)
    case Function(i, o) => BaseLastMetOn(o, n, c) || (n !in StackStacksOf(o) && BaseLastMetOn(i, n, c))
    case _ => false
  }

  predicate BaseLastMetOn(s: Stack, n: nat, c: set<StackConstraint>) {
    match s
    case Bottom => false
    case StackGeneric(m, cs) => m == n && cs == c
    case Push(b, t) => BaseLastMetOn(b, n, c) || (n !in StackStacksOf(b) && BaseLastMet(t, n, c))
  }

  lemma {:induction false} MetIsRecorded(t: Type, n: nat, m: map<nat, set<Constraint>>, k: map<nat, set<StackConstraint>>)
    ensures n in GenericsOf(t) ==> n in ConstraintsOf(t, m) && LastMet(t, n, ConstraintsOf(t, m)[n])
    ensures n !in GenericsOf(t) ==> (n in ConstraintsOf(t, m) <==> n in m) && (n in m ==> ConstraintsOf(t, m)[n] == m[n])
    ensures n in StacksOf(t) ==> n in BaseConstraintsOf(t, k) && BaseLastMet(t, n, BaseConstraintsOf(t, k)[n])
    ensures n !in StacksOf(t) ==> (n in BaseConstraintsOf(t, k) <==> n in k) && (n in k ==> BaseConstraintsOf(t, k)[n] == k[n])
  {
    match t
    case Channel(_, _, p) => MetIsRecorded(p, n, m, k);
    case Function(i, o) =>
      MetOnIsRecorded(i, n, m, k);
      MetOnIsRecorded(o, n, StackConstraintsIn(i, m), StackBaseConstraintsOf(i, k));
    case _ =>
  }

  lemma {:induction false} MetOnIsRecorded(s: Stack, n: nat, m: map<nat, set<Constraint>>, k: map<nat, set<StackConstraint>>)
    ensures n in StackGenericsOf(s) ==> n in StackConstraintsIn(s, m) && LastMetOn(s, n, StackConstraintsIn(s, m)[n])
    ensures n !in StackGenericsOf(s) ==> (n in StackConstraintsIn(s, m) <==> n in m) && (n in m ==> StackConstraintsIn(s, m)[n] == m[n])
    ensures n in StackStacksOf(s) ==> n in StackBaseConstraintsOf(s, k) && BaseLastMetOn(s, n, StackBaseConstraintsOf(s, k)[n])
    ensures n !in StackStacksOf(s) ==> (n in StackBaseConstraintsOf(s, k) <==> n in k) && (n in k ==> StackBaseConstraintsOf(s, k)[n] == k[n])
  {
    match s
    case Push(b, t) =>
      MetIsRecorded(t, n, m, k);
      MetOnIsRecorded(b, n, ConstraintsOf(t, m), BaseConstraintsOf(t, k));
    case _ =>
  }

  /** A variable met with differing constraints is cloned with those it is last met with. */
  lemma LastMetDecides(t: Type, r: Renaming, n: nat)
    requires Covers(r, t) && KeepsConstraints(r, t)
    ensures n in GenericsOf(t) ==> r.types[n].Generic? && LastMet(t, n, r.types[n].constraints)
    ensures n in StacksOf(t) ==> r.stacks[n].StackGeneric? && BaseLastMet(t, n, r.stacks[n].stackConstraints)
  {
    MetIsRecorded(t, n, map[], map[]);
  }

  /** And the clone itself records each variable with the constraints of the original. */
  lemma CloneKeepsConstraints(
    t: Type, r: Renaming, n: nat, cs: map<nat, set<Constraint>>, ss: map<nat, set<StackConstraint>>)
    requires Covers(r, t) && KeepsConstraints(r, t) && Consistent(t, cs, ss)
    ensures n in GenericsOf(t) ==> n in cs && r.types[n].Generic? && r.types[n].constraints == cs[n]
    ensures n in StacksOf(t) ==>
              n in ss && r.stacks[n].StackGeneric? && r.stacks[n].stackConstraints == ss[n]
  {
    ConsistentMaps(t, cs, ss, map[], map[]);
  }

  lemma {:induction false} CloneTypeIsNew(t: Type, r: Renaming, lo: Counters, hi: Counters)
    requires Covers(r, t) && Fresh(r, lo, hi)
    ensures forall n | n in GenericsOf(RenameType(r, t)) :: lo.generics <= n < hi.generics
    ensures forall n | n in StacksOf(RenameType(r, t)) :: lo.stacks <= n < hi.stacks
    ensures forall n | n in ChannelsOf(RenameType(r, t)) :: lo.channels <= n < hi.channels
  {
    match t
    case Channel(_, _, c) => CloneTypeIsNew(c, r, lo, hi);
    case Generic(n, _) => assert n in GenericsOf(t);
    case Function(i, o) =>
      CloneStackIsNew(i, r, lo, hi);
      CloneStackIsNew(o, r, lo, hi);
    case _ =>
  }

  lemma {:induction false} CloneStackIsNew(s: Stack, r: Renaming, lo: Counters, hi: Counters)
    requires CoversStack(r, s) && Fresh(r, lo, hi)
    ensures forall n | n in StackGenericsOf(RenameStack(r, s)) :: lo.generics <= n < hi.generics
    ensures forall n | n in StackStacksOf(RenameStack(r, s)) :: lo.stacks <= n < hi.stacks
    ensures forall n | n in StackChannelsOf(RenameStack(r, s)) :: lo.channels <= n < hi.channels
  {
    match s
    case Push(b, t) =>
      CloneStackIsNew(b, r, lo, hi);
      CloneTypeIsNew(t, r, lo, hi);
    case StackGeneric(n, _) => assert n in StackStacksOf(s);
    case _ =>
  }

  /** A clone shares no variable with any type built before it, however often variables repeat. */
  lemma CloneSharesNothing(earlier: Type, t: Type, r: Renaming, lo: Counters, hi: Counters, n: nat)
    requires Before(earlier, lo) && Covers(r, t) && Fresh(r, lo, hi)
    ensures n in GenericsOf(earlier) ==> n !in GenericsOf(RenameType(r, t))
    ensures n in StacksOf(earlier) ==> n !in StacksOf(RenameType(r, t))
    ensures n in ChannelsOf(earlier) ==> n !in ChannelsOf(RenameType(r, t))
    ensures Before(RenameType(r, t), hi)
  {
    CloneTypeIsNew(t, r, lo, hi);
  }
}
