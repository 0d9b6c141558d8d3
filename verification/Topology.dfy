/**
 * The order in which declarations are type checked: a depth-first visit of the references in each
 * declaration's term, which must cope with recursion.
 */
module Topology {

  datatype Term = Term(expressions: seq<Expression>)

  datatype Expression =
    | Number(n: nat)
    | Alternation(arms: seq<Term>)
    | AnonymousTerm(term: Term)
    | NamedTermApp(name: string)
    | NamedTermRef(name: string)
    | If(condition: Term, whenTrue: Term, whenFalse: Term)
    | While(condition: Term, body: Term)
    | Forever(body: Term)
    | Repeat(count: nat, body: Term)
    | Offset(k: nat)

  datatype Declaration = Declaration(name: string, term: Term)

  // ----- the references of a term, in the order of the visit -----

  function NamesOf(t: Term): seq<string>
    decreases t, 1, 0
  {
    NamesOfAll(t, |t.expressions|)
  }

  function NamesOfAll(t: Term, k: nat): seq<string>
    requires k <= |t.expressions|
    decreases t, 0, k
  {
    if k == 0 then [] else NamesOfAll(t, k - 1) + NamesOfExpression(t.expressions[k - 1])
  }

  function NamesOfExpression(e: Expression): seq<string>
    decreases e, 1, 0
  {
    match e
    case Alternation(arms) => NamesOfArms(e, |arms|)
    case AnonymousTerm(t) => NamesOf(t)
    case NamedTermApp(n) => [n]
    case NamedTermRef(n) => [n]
    case If(c, t, f) => NamesOf(c) + NamesOf(t) + NamesOf(f)
    case While(c, b) => NamesOf(c) + NamesOf(b)
    case Forever(b) => NamesOf(b)
    case Repeat(_, b) => NamesOf(b)
    case _ => []
  }

  function NamesOfArms(e: Expression, k: nat): seq<string>
    requires e.Alternation? && k <= |e.arms|
    decreases e, 0, k
  {
    if k == 0 then [] else NamesOfArms(e, k - 1) + NamesOf(e.arms[k - 1])
  }

  // ----- the visit, on values -----

  /** What each declaration refers to, and the names that need no declaration. */
  datatype Graph = Graph(refs: map<string, seq<string>>, known: set<string>)

  datatype Visit = Visit(order: seq<string>, visited: set<string>)

  datatype Outcome = Visited(visit: Visit) | Unknown(name: string)

  function Unvisited(g: Graph, v: Visit): set<string> {
    g.refs.Keys - v.visited
  }

  function NamesVisited(g: Graph, names: seq<string>, v: Visit): (r: Outcome)
    ensures r.Visited? ==> v.visited <= r.visit.visited && Unvisited(g, r.visit) <= Unvisited(g, v)
    decreases |Unvisited(g, v)|, 2, |names|
  {
    if names == [] then Visited(v)
    else
      var r := NameVisited(g, names[0], v);
      if r.Unknown? then r
      else
        Smaller(Unvisited(g, r.visit), Unvisited(g, v));
        NamesVisited(g, names[1..], r.visit)
  }

  function NameVisited(g: Graph, name: string, v: Visit): (r: Outcome)
    ensures r.Visited? ==> v.visited <= r.visit.visited
    decreases |Unvisited(g, v)|, 1, 0
  {
    if name in g.refs then DeclarationVisited(g, name, v)
    else if name in g.known then Visited(v)
    else Unknown(name)
  }

  function DeclarationVisited(g: Graph, name: string, v: Visit): (r: Outcome)
    requires name in g.refs
    ensures r.Visited? ==> v.visited + {name} <= r.visit.visited
    decreases |Unvisited(g, v)|, 0, 0
  {
    if name in v.visited then Visited(v)
    else
      var entered := v.(visited := v.visited + {name});
      assert name in Unvisited(g, v) && Unvisited(g, entered) == Unvisited(g, v) - {name};
      var r := NamesVisited(g, g.refs[name], entered);
      if r.Unknown? then r else Visited(r.visit.(order := r.visit.order + [name]))
  }

  lemma Smaller<T>(a: set<T>, b: set<T>)
    requires a <= b
    ensures |a| <= |b|
  {
    assert b == a + (b - a);
  }

  lemma {:induction false} VisitInTwo(g: Graph, a: seq<string>, b: seq<string>, v: Visit)
    ensures NamesVisited(g, a + b, v) ==
            var r := NamesVisited(g, a, v);
            if r.Unknown? then r else NamesVisited(g, b, r.visit)
    decreases |a|
  {
    if a == [] {
      assert a + b == b;
    } else {
      var r := NameVisited(g, a[0], v);
      assert (a + b)[1..] == a[1..] + b;
      if r.Visited? { VisitInTwo(g, a[1..], b, r.visit); }
    }
  }

  // ----- what the visit achieves -----

  predicate IsPath(g: Graph, p: seq<string>, a: string, b: string) {
    && p != [] && p[0] == a && p[|p| - 1] == b
    && forall i | 0 <= i < |p| - 1 :: p[i] in g.refs && p[i + 1] in g.refs[p[i]]
  }

  /** `b` can be reached from `a` by following references, perhaps none. */
  ghost predicate Reaches(g: Graph, a: string, b: string) {
    exists p :: IsPath(g, p, a, b)
  }

  lemma ReachesItself(g: Graph, a: string)
    ensures Reaches(g, a, a)
  {
    assert IsPath(g, [a], a, a);
  }

  lemma ReachesOn(g: Graph, a: string, b: string, c: string)
    requires Reaches(g, a, b) && b in g.refs && c in g.refs[b]
    ensures Reaches(g, a, c)
  {
    var p :| IsPath(g, p, a, b);
    var q := p + [c];
    assert q[0] == p[0] && q[|q| - 2] == p[|p| - 1];
    assert IsPath(g, q, a, c);
  }

  function Elements(xs: seq<string>): set<string> {
    set x | x in xs
  }

  /** Entered, but not yet left. */
  function Open(v: Visit): set<string> {
    v.visited - Elements(v.order)
  }

  predicate Tidy(g: Graph, v: Visit) {
    && (forall i, j | 0 <= i < j < |v.order| :: v.order[i] != v.order[j])
    && Elements(v.order) <= v.visited <= g.refs.Keys
  }

  /** Each declaration comes after all it refers to, except for those that refer back to it. */
  ghost predicate Ordered(g: Graph, order: seq<string>) {
    forall i, e | 0 <= i < |order| && order[i] in g.refs && e in g.refs[order[i]] && e in g.refs ::
      e in order[..i] || Reaches(g, e, order[i])
  }

  predicate Known(g: Graph, name: string) {
    name in g.refs || name in g.known
  }

  /** What is open leads to every name that is about to be visited. */
  ghost predicate Leads(g: Graph, v: Visit, name: string) {
    forall x | x in Open(v) :: Reaches(g, x, name)
  }

  /** A successful visit: it finishes what it enters, in order, and everything it meets is known. */
  ghost predicate Succeeds(g: Graph, v: Visit, w: Visit) {
    && Tidy(g, w) && Ordered(g, w.order) && v.order <= w.order && Open(w) == Open(v)
    && forall d, e | d in w.order && d !in v.order && d in g.refs && e in g.refs[d] :: Known(g, e)
  }

  lemma {:induction false} NamesSucceed(g: Graph, names: seq<string>, v: Visit)
    requires Tidy(g, v) && Ordered(g, v.order) && forall n | n in names && n in g.refs :: Leads(g, v, n)
    ensures var r := NamesVisited(g, names, v);
            r.Visited? ==> Succeeds(g, v, r.visit) && forall n | n in names :: Known(g, n) && (n in g.refs ==> n in r.visit.visited)
    decreases |Unvisited(g, v)|, 2, |names|
  {
    if names != [] {
      var r := NameVisited(g, names[0], v);
      assert names[0] in names;
      if names[0] in g.refs { DeclarationSucceeds(g, names[0], v); }
      if r.Visited? {
        Smaller(Unvisited(g, r.visit), Unvisited(g, v));
        assert forall n | n in names[1..] :: n in names;
        NamesSucceed(g, names[1..], r.visit);
        assert forall n | n in names :: n == names[0] || n in names[1..];
      }
    }
  }

  lemma {:induction false} DeclarationSucceeds(g: Graph, name: string, v: Visit)
    requires Tidy(g, v) && Ordered(g, v.order) && name in g.refs && Leads(g, v, name)
    ensures var r := DeclarationVisited(g, name, v);
            r.Visited? ==> Succeeds(g, v, r.visit)
    decreases |Unvisited(g, v)|, 0, 0
  {
    if name !in v.visited {
      var entered := v.(visited := v.visited + {name});
      assert Unvisited(g, entered) == Unvisited(g, v) - {name} && Open(entered) == Open(v) + {name};
      ReachesItself(g, name);
      forall n | n in g.refs[name] && n in g.refs ensures Leads(g, entered, n) {
        forall x | x in Open(entered) ensures Reaches(g, x, n) {
          ReachesOn(g, x, name, n);
        }
      }
      NamesSucceed(g, g.refs[name], entered);
      var r := NamesVisited(g, g.refs[name], entered);
      if r.Visited? { Closes(g, name, v, entered, r.visit); }
    }
  }

  /** A declaration is finished after everything it refers to has been visited. */
  lemma Closes(g: Graph, name: string, v: Visit, entered: Visit, w: Visit)
    requires Tidy(g, v) && name in g.refs && name !in v.visited && entered == v.(visited := v.visited + {name})
    requires Succeeds(g, entered, w) && Leads(g, v, name)
    requires forall n | n in g.refs[name] :: Known(g, n) && (n in g.refs ==> n in w.visited)
    ensures Succeeds(g, v, w.(order := w.order + [name]))
  {
    var order := w.order + [name];
    assert Open(entered) == Open(v) + {name} && name in Open(w);
    assert Elements(order) == Elements(w.order) + {name};
    ReachesItself(g, name);
    forall i, e | 0 <= i < |order| && order[i] in g.refs && e in g.refs[order[i]] && e in g.refs
      ensures e in order[..i] || Reaches(g, e, order[i])
    {
      if i < |w.order| {
        assert order[..i] == w.order[..i];
      } else {
        assert order[..i] == w.order;
        assert e in w.visited;
        if e !in w.order { assert e in Open(w); }
      }
    }
  }

  ghost predicate ReferredTo(g: Graph, name: string) {
    exists d :: d in g.refs && name in g.refs[d]
  }

  /** A failed visit names something that is referred to and unknown. */
  lemma {:induction false} NamesFail(g: Graph, names: seq<string>, v: Visit)
    ensures var r := NamesVisited(g, names, v);
            r.Unknown? ==> !Known(g, r.name) && (r.name in names || ReferredTo(g, r.name))
    decreases |Unvisited(g, v)|, 2, |names|
  {
    if names != [] {
      var r := NameVisited(g, names[0], v);
      if r.Visited? {
        Smaller(Unvisited(g, r.visit), Unvisited(g, v));
        NamesFail(g, names[1..], r.visit);
        assert forall n | n in names[1..] :: n in names;
      } else if names[0] in g.refs {
        DeclarationFails(g, names[0], v);
      }
    }
  }

  lemma {:induction false} DeclarationFails(g: Graph, name: string, v: Visit)
    requires name in g.refs && DeclarationVisited(g, name, v).Unknown?
    ensures var r := DeclarationVisited(g, name, v); !Known(g, r.name) && ReferredTo(g, r.name)
    decreases |Unvisited(g, v)|, 0, 0
  {
    var entered := v.(visited := v.visited + {name});
    assert name in Unvisited(g, v) && Unvisited(g, entered) == Unvisited(g, v) - {name};
    NamesFail(g, g.refs[name], entered);
  }

  // ----- the program -----

  predicate Distinct(program: seq<Declaration>) {
    forall i, j | 0 <= i < j < |program| :: program[i].name != program[j].name
  }

  function GraphOf(program: seq<Declaration>, environment: set<string>): Graph {
    Graph(RefsOf(program), environment + {"chan", "proc", "?", "!", "del"})
  }

  function RefsOf(program: seq<Declaration>): map<string, seq<string>> {
    if program == [] then map[]
    else
      var d := program[|program| - 1];
      RefsOf(program[..|program| - 1])[d.name := NamesOf(d.term)]
  }

  function DeclaredNames(program: seq<Declaration>): seq<string> {
    seq(|program|, i requires 0 <= i < |program| => program[i].name)
  }

  lemma {:induction false} RefsAre(program: seq<Declaration>, i: nat)
    requires Distinct(program) && i < |program|
    ensures program[i].name in RefsOf(program) && RefsOf(program)[program[i].name] == NamesOf(program[i].term)
  {
    if i < |program| - 1 { RefsAre(program[..|program| - 1], i); }
  }

  lemma {:induction false} RefsAreDeclared(program: seq<Declaration>, name: string)
    ensures name in RefsOf(program) <==> name in DeclaredNames(program)
  {
    if program != [] {
      var rest := program[..|program| - 1];
      RefsAreDeclared(rest, name);
      assert DeclaredNames(program) == DeclaredNames(rest) + [program[|program| - 1].name];
    } else {
      assert DeclaredNames(program) == [];
    }
  }

  ghost predicate AllKnown(g: Graph) {
    forall d, e | d in g.refs && e in g.refs[d] :: Known(g, e)
  }

  function SortedNames(program: seq<Declaration>, environment: set<string>): Outcome {
    NamesVisited(GraphOf(program, environment), DeclaredNames(program), Visit([], {}))
  }

  /**
   * The sort succeeds exactly when every reference is known; its order lists every declaration once;
   * and a declaration comes after each one it refers to that does not lead back to it.
   */
  lemma SortIsTopological(program: seq<Declaration>, environment: set<string>)
    ensures var g, r := GraphOf(program, environment), SortedNames(program, environment);
            && (r.Visited? <==> AllKnown(g))
            && (r.Unknown? ==> !Known(g, r.name) && ReferredTo(g, r.name))
            && (r.Visited? ==>
                  && (forall i, j | 0 <= i < j < |r.visit.order| :: r.visit.order[i] != r.visit.order[j])
                  && Elements(r.visit.order) == g.refs.Keys && Ordered(g, r.visit.order))
  {
    var g, names := GraphOf(program, environment), DeclaredNames(program);
    var start := Visit([], {});
    assert Open(start) == {};
    NamesSucceed(g, names, start);
    NamesFail(g, names, start);
    forall name ensures name in g.refs <==> name in names {
      RefsAreDeclared(program, name);
    }
    var r := NamesVisited(g, names, start);
    if r.Visited? {
      assert Open(r.visit) == {};
      forall name | name in g.refs ensures name in Elements(r.visit.order) {
        assert name in r.visit.visited && name !in Open(r.visit);
      }
    }
  }

  // ----- the visitor -----

  /** One name is visited as a list of one. */
  lemma OneName(g: Graph, name: string, v: Visit)
    ensures NamesVisited(g, [name], v) == NameVisited(g, name, v)
  {
    assert [name][1..] == [];
  }

  lemma {:induction false} TermStops(g: Graph, t: Term, k: nat, v: Visit)
    requires k <= |t.expressions| && NamesVisited(g, NamesOfAll(t, k), v).Unknown?
    ensures NamesVisited(g, NamesOf(t), v).Unknown?
    decreases |t.expressions| - k
  {
    if k < |t.expressions| {
      VisitInTwo(g, NamesOfAll(t, k), NamesOfExpression(t.expressions[k]), v);
      TermStops(g, t, k + 1, v);
    }
  }

  lemma OneMoreExpression(g: Graph, t: Term, k: nat, before: Visit, mid: Visit, after: Visit, ok: bool)
    requires k < |t.expressions| && NamesVisited(g, NamesOfAll(t, k), before) == Visited(mid)
    requires var r := NamesVisited(g, NamesOfExpression(t.expressions[k]), mid);
             if ok then r == Visited(after) else r.Unknown?
    ensures if ok then NamesVisited(g, NamesOfAll(t, k + 1), before) == Visited(after)
            else NamesVisited(g, NamesOf(t), before).Unknown?
  {
    VisitInTwo(g, NamesOfAll(t, k), NamesOfExpression(t.expressions[k]), before);
    if !ok { TermStops(g, t, k + 1, before); }
  }

  lemma {:induction false} ArmsStop(g: Graph, e: Expression, k: nat, v: Visit)
    requires e.Alternation? && k <= |e.arms| && NamesVisited(g, NamesOfArms(e, k), v).Unknown?
    ensures NamesVisited(g, NamesOfExpression(e), v).Unknown?
    decreases if e.Alternation? then |e.arms| - k else 0
  {
    if k < |e.arms| {
      VisitInTwo(g, NamesOfArms(e, k), NamesOf(e.arms[k]), v);
      ArmsStop(g, e, k + 1, v);
    }
  }

  lemma {:induction false} ProgramStops(g: Graph, names: seq<string>, k: nat, v: Visit)
    requires k <= |names| && NamesVisited(g, names[..k], v).Unknown?
    ensures NamesVisited(g, names, v).Unknown?
  {
    assert names == names[..k] + names[k..];
    VisitInTwo(g, names[..k], names[k..], v);
  }

  class Visitor {
    const program: seq<Declaration>
    const declarations: map<string, nat>
    const environment: set<string>
    ghost const graph: Graph
    var order: seq<string>
    var visited: set<string>

    ghost predicate Valid() {
      && Distinct(program) && graph == GraphOf(program, environment)
      && declarations.Keys == graph.refs.Keys
      && (forall name | name in declarations :: declarations[name] < |program| && program[declarations[name]].name == name)
    }

    ghost function Now(): Visit
      reads this
    {
      Visit(order, visited)
    }

    constructor (program: seq<Declaration>, environment: set<string>)
      requires Distinct(program)
      ensures Valid() && Now() == Visit([], {}) && this.program == program && this.environment == environment
    {
      this.program, this.environment := program, environment;
      order, visited := [], {};
      graph := GraphOf(program, environment);
      var indices: map<string, nat> := map[];
      for i := 0 to |program|
        invariant indices.Keys == RefsOf(program[..i]).Keys
        invariant forall name | name in indices :: indices[name] < i && program[indices[name]].name == name
      {
        assert program[..i + 1][..i] == program[..i];
        indices := indices[program[i].name := i];
      }
      assert program[..|program|] == program;
      declarations := indices;
    }

    /** Ties what a method did to the visit of names. */
    ghost predicate Did(before: Visit, names: seq<string>, ok: bool)
      reads this
    {
      var r := NamesVisited(graph, names, before);
      if ok then r == Visited(Now()) else r.Unknown?
    }

    method VisitName(name: string) returns (ok: bool)
      requires Valid()
      modifies this
      ensures Did(old(Now()), [name], ok) && old(visited) <= visited
      decreases |Unvisited(graph, Now())|, 1, 0
    {
      OneName(graph, name, Now());
      if name in declarations {
        ok := VisitDeclaration(program[declarations[name]]);
      } else {
        ok := name in environment || name == "chan" || name == "proc" || name == "?" || name == "!" || name == "del";
      }
    }

    method VisitDeclaration(declaration: Declaration) returns (ok: bool)
      requires Valid() && declaration.name in declarations && program[declarations[declaration.name]] == declaration
      modifies this
      ensures var r := DeclarationVisited(graph, declaration.name, old(Now()));
              if ok then r == Visited(Now()) else r.Unknown?
      ensures old(visited) <= visited
      decreases |Unvisited(graph, Now())|, 0, 0
    {
      ok := true;
      if declaration.name !in visited {
        ghost var before := Now();
        visited := visited + {declaration.name};
        assert declaration.name in Unvisited(graph, before) && Unvisited(graph, Now()) == Unvisited(graph, before) - {declaration.name};
        RefsAre(program, declarations[declaration.name]);
        ok := VisitTerm(declaration.term);
        if ok {
          order := order + [declaration.name];
        }
      }
    }

    method VisitTerm(t: Term) returns (ok: bool)
      requires Valid()
      modifies this
      ensures Did(old(Now()), NamesOf(t), ok) && old(visited) <= visited
      decreases |Unvisited(graph, Now())|, 2, t
    {
      ghost var before := Now();
      ok := true;
      for k := 0 to |t.expressions|
        invariant ok && Did(before, NamesOfAll(t, k), true) && old(visited) <= visited
      {
        ghost var mid := Now();
        Smaller(Unvisited(graph, mid), Unvisited(graph, before));
        ok := VisitExpression(t.expressions[k]);
        OneMoreExpression(graph, t, k, before, mid, Now(), ok);
        if !ok {
          return;
        }
      }
    }

    method VisitExpression(e: Expression) returns (ok: bool)
      requires Valid()
      modifies this
      ensures Did(old(Now()), NamesOfExpression(e), ok) && old(visited) <= visited
      decreases |Unvisited(graph, Now())|, 2, e
    {
      match e {
        case Alternation(arms) => ok := VisitArms(e);
        case AnonymousTerm(term) => ok := VisitTerm(term);
        case If(c, t, f) => ok := VisitThree(e, c, t, f);
        case While(c, b) => ok := VisitTwo(e, c, b);
        case Forever(b) => ok := VisitTerm(b);
        case Repeat(_, b) => ok := VisitTerm(b);
        case NamedTermApp(n) => ok := VisitName(n);
        case NamedTermRef(n) => ok := VisitName(n);
        case _ => ok := true;
      }
    }

    method VisitArms(e: Expression) returns (ok: bool)
      requires Valid() && e.Alternation?
      modifies this
      ensures Did(old(Now()), NamesOfExpression(e), ok) && old(visited) <= visited
      decreases |Unvisited(graph, Now())|, 2, e, 0
    {
      ghost var before := Now();
      ok := true;
      for k := 0 to |e.arms|
        invariant ok && Did(before, NamesOfArms(e, k), true) && old(visited) <= visited
      {
        Smaller(Unvisited(graph, Now()), Unvisited(graph, before));
        VisitInTwo(graph, NamesOfArms(e, k), NamesOf(e.arms[k]), before);
        ok := VisitTerm(e.arms[k]);
        if !ok {
          ArmsStop(graph, e, k + 1, before);
          return;
        }
      }
    }

    method VisitTwo(e: Expression, a: Term, b: Term) returns (ok: bool)
      requires Valid() && a < e && b < e
      modifies this
      ensures Did(old(Now()), NamesOf(a) + NamesOf(b), ok) && old(visited) <= visited
      decreases |Unvisited(graph, Now())|, 2, e, 0
    {
      ghost var before := Now();
      VisitInTwo(graph, NamesOf(a), NamesOf(b), before);
      ok := VisitTerm(a);
      if ok {
        Smaller(Unvisited(graph, Now()), Unvisited(graph, before));
        ok := VisitTerm(b);
      }
    }

    method VisitThree(e: Expression, a: Term, b: Term, c: Term) returns (ok: bool)
      requires Valid() && a < e && b < e && c < e
      modifies this
      ensures Did(old(Now()), NamesOf(a) + NamesOf(b) + NamesOf(c), ok) && old(visited) <= visited
      decreases |Unvisited(graph, Now())|, 2, e, 1
    {
      ghost var before := Now();
      VisitInTwo(graph, NamesOf(a) + NamesOf(b), NamesOf(c), before);
      ok := VisitTwo(e, a, b);
      if ok {
        Smaller(Unvisited(graph, Now()), Unvisited(graph, before));
        ok := VisitTerm(c);
      }
    }

    method VisitProgram() returns (ok: bool)
      requires Valid()
      modifies this
      ensures Did(old(Now()), DeclaredNames(program), ok)
    {
      ghost var before, names := Now(), DeclaredNames(program);
      ok := true;
      for i := 0 to |program|
        invariant ok && Did(before, names[..i], true)
      {
        assert names[..i + 1] == names[..i] + [names[i]];
        VisitInTwo(graph, names[..i], [names[i]], before);
        OneName(graph, names[i], Now());
        RefsAre(program, i);
        IndexIs(program[i].name, i);
        ok := VisitDeclaration(program[i]);
        if !ok {
          ProgramStops(graph, names, i + 1, before);
          return;
        }
      }
      assert names[..|program|] == names;
    }

    lemma IndexIs(name: string, i: nat)
      requires Valid() && i < |program| && program[i].name == name && name in declarations
      ensures declarations[name] == i
    {
    }
  }

  predicate InProgram(program: seq<Declaration>, order: seq<nat>) {
    forall i | 0 <= i < |order| :: order[i] < |program|
  }

  function NamesAt(program: seq<Declaration>, order: seq<nat>): seq<string>
    requires InProgram(program, order)
  {
    seq(|order|, i requires 0 <= i < |order| => program[order[i]].name)
  }

  /** The order as positions in the program; `None` for an unknown name. */
  method SortDefinitionsTopologically(program: seq<Declaration>, environment: set<string>) returns (order: seq<nat>, ok: bool)
    requires Distinct(program)
    ensures ok <==> SortedNames(program, environment).Visited?
    ensures ok ==>
              && |order| == |program| && InProgram(program, order) && (forall i, j | 0 <= i < j < |order| :: order[i] != order[j])
              && NamesAt(program, order) == SortedNames(program, environment).visit.order
  {
    var visitor := new Visitor(program, environment);
    order := [];
    ok := visitor.VisitProgram();
    if ok {
      SortIsTopological(program, environment);
      var names := visitor.order;
      forall name | name in names ensures name in visitor.declarations {
        assert name in Elements(names);
      }
      for i := 0 to |names|
        invariant |order| == i
        invariant forall j | 0 <= j < i :: order[j] < |program| && program[order[j]].name == names[j]
      {
        order := order + [visitor.declarations[names[i]]];
      }
      AsManyNames(program, names, environment);
    }
  }

  lemma {:induction false} DistinctSize(xs: seq<string>)
    requires forall i, j | 0 <= i < j < |xs| :: xs[i] != xs[j]
    ensures |Elements(xs)| == |xs|
  {
    if xs != [] {
      var n := |xs| - 1;
      DistinctSize(xs[..n]);
      assert Elements(xs) == Elements(xs[..n]) + {xs[n]};
    }
  }

  lemma AsManyNames(program: seq<Declaration>, names: seq<string>, environment: set<string>)
    requires Distinct(program) && (forall i, j | 0 <= i < j < |names| :: names[i] != names[j])
    requires Elements(names) == GraphOf(program, environment).refs.Keys
    ensures |names| == |program|
  {
    DistinctSize(names);
    DistinctSize(DeclaredNames(program));
    forall name ensures name in Elements(names) <==> name in Elements(DeclaredNames(program)) {
      RefsAreDeclared(program, name);
    }
    assert Elements(names) == Elements(DeclaredNames(program));
  }
}
