/**
 * What a declaration refers to, said of its syntax and not of the visit: a name occurs in a term when
 * it stands somewhere in it. The order of declarations is about that.
 */
module References {
  import opened Topology

  /** The terms an expression is made of. */
  predicate PartOf(t: Term, e: Expression) {
    match e
    case Alternation(arms) => t in arms
    case AnonymousTerm(u) => t == u
    case If(c, yes, no) => t == c || t == yes || t == no
    case While(c, b) => t == c || t == b
    case Forever(b) => t == b
    case Repeat(_, b) => t == b
    case _ => false
  }

  /** One level further in. */
  ghost predicate Inside(f: Expression, e: Expression) {
    exists t :: PartOf(t, e) && f in t.expressions
  }

  predicate IsName(e: Expression, name: string) {
    e == NamedTermApp(name) || e == NamedTermRef(name)
  }

  /** A way from the outside of the term in, to an application or a reference of the name. */
  ghost predicate Way(path: seq<Expression>, t: Term, name: string) {
    && path != [] && path[0] in t.expressions && IsName(path[|path| - 1], name)
    && forall i | 0 < i < |path| :: Inside(path[i], path[i - 1])
  }

  ghost predicate Occurs(name: string, t: Term) {
    exists path :: Way(path, t, name)
  }

  lemma {:induction false} NamesOfAllAre(t: Term, k: nat, name: string)
    requires k <= |t.expressions|
    ensures name in NamesOfAll(t, k) <==> exists i :: 0 <= i < k && name in NamesOfExpression(t.expressions[i])
  {
    if k > 0 { NamesOfAllAre(t, k - 1, name); }
  }

  lemma {:induction false} NamesOfArmsAre(e: Expression, k: nat, name: string)
    requires e.Alternation? && k <= |e.arms|
    ensures name in NamesOfArms(e, k) <==> exists i :: 0 <= i < k && name in NamesOf(e.arms[i])
  {
    if k > 0 { NamesOfArmsAre(e, k - 1, name); }
  }

  /** The visit of an expression meets a name exactly when it is the name, or a part of it has the name. */
  lemma ExpressionNames(e: Expression, name: string)
    ensures name in NamesOfExpression(e) <==> IsName(e, name) || exists t :: PartOf(t, e) && name in NamesOf(t)
  {
    match e
    case Alternation(arms) => NamesOfArmsAre(e, |arms|, name);
    case AnonymousTerm(t) => assert PartOf(t, e);
    case If(c, yes, no) => assert PartOf(c, e) && PartOf(yes, e) && PartOf(no, e);
    case While(c, b) => assert PartOf(c, e) && PartOf(b, e);
    case Forever(b) => assert PartOf(b, e);
    case Repeat(_, b) => assert PartOf(b, e);
    case _ =>
  }

  lemma {:induction false} VisitedOccurs(t: Term, name: string) returns (path: seq<Expression>)
    requires name in NamesOf(t)
    ensures Way(path, t, name)
    decreases t
  {
    NamesOfAllAre(t, |t.expressions|, name);
    var i :| 0 <= i < |t.expressions| && name in NamesOfExpression(t.expressions[i]);
    var e := t.expressions[i];
    ExpressionNames(e, name);
    if IsName(e, name) {
      path := [e];
    } else {
      var u :| PartOf(u, e) && name in NamesOf(u);
      PartIsSmaller(u, e);
      var rest := VisitedOccurs(u, name);
      path := [e] + rest;
      forall i | 0 < i < |path| ensures Inside(path[i], path[i - 1]) {
        if i > 1 { assert Inside(rest[i - 1], rest[i - 2]); }
      }
    }
  }

  lemma PartIsSmaller(u: Term, e: Expression)
    requires PartOf(u, e)
    ensures u < e
  {
  }

  lemma {:induction false} OccurringIsVisited(path: seq<Expression>, t: Term, name: string)
    requires Way(path, t, name)
    ensures name in NamesOf(t)
    decreases |path|
  {
    var e := path[0];
    if |path| > 1 {
      assert Inside(path[1], path[0]);
      var u :| PartOf(u, e) && path[1] in u.expressions;
      forall i | 0 < i < |path[1..]| ensures Inside(path[1..][i], path[1..][i - 1]) {
        assert Inside(path[i + 1], path[i]);
      }
      OccurringIsVisited(path[1..], u, name);
    }
    ExpressionNames(e, name);
    var i :| 0 <= i < |t.expressions| && t.expressions[i] == e;
    NamesOfAllAre(t, |t.expressions|, name);
  }

  /** The visit meets exactly the names that occur. */
  lemma NamesOccur(t: Term, name: string)
    ensures name in NamesOf(t) <==> Occurs(name, t)
  {
    if name in NamesOf(t) {
      var path := VisitedOccurs(t, name);
    }
    forall path | Way(path, t, name) ensures name in NamesOf(t) {
      OccurringIsVisited(path, t, name);
    }
  }

  // ----- the order of declarations, by what occurs in them -----

  ghost predicate Declared(program: seq<Declaration>, name: string) {
    exists d :: d in program && d.name == name
  }

  /** Declared, in the environment, or one of the five names that take a parameter. */
  ghost predicate Understood(program: seq<Declaration>, environment: set<string>, name: string) {
    Declared(program, name) || name in environment || name in ["chan", "proc", "?", "!", "del"]
  }

  /** Each declaration on the way mentions the next. */
  ghost predicate Mentions(program: seq<Declaration>, a: string, b: string) {
    Declared(program, b) && exists d :: d in program && d.name == a && Occurs(b, d.term)
  }

  ghost predicate Trail(program: seq<Declaration>, p: seq<string>, a: string, b: string) {
    p != [] && p[0] == a && p[|p| - 1] == b && forall i | 0 <= i < |p| - 1 :: Mentions(program, p[i], p[i + 1])
  }

  ghost predicate LeadsBack(program: seq<Declaration>, a: string, b: string) {
    exists p :: Trail(program, p, a, b)
  }

  lemma RefsAreOccurrences(program: seq<Declaration>, environment: set<string>, d: Declaration, name: string)
    requires Distinct(program) && d in program
    ensures var g := GraphOf(program, environment);
            d.name in g.refs && (name in g.refs[d.name] <==> Occurs(name, d.term))
  {
    var i :| 0 <= i < |program| && program[i] == d;
    RefsAre(program, i);
    NamesOccur(d.term, name);
  }

  lemma RefsAreDeclarations(program: seq<Declaration>, environment: set<string>, name: string)
    ensures name in GraphOf(program, environment).refs <==> Declared(program, name)
  {
    RefsAreDeclared(program, name);
    if name in DeclaredNames(program) {
      var i :| 0 <= i < |program| && DeclaredNames(program)[i] == name;
      assert program[i] in program && program[i].name == name;
    }
    if Declared(program, name) {
      var d :| d in program && d.name == name;
      var i :| 0 <= i < |program| && program[i] == d;
      assert DeclaredNames(program)[i] == name;
    }
  }

  lemma KnownIsUnderstood(program: seq<Declaration>, environment: set<string>, name: string)
    ensures Known(GraphOf(program, environment), name) <==> Understood(program, environment, name)
  {
    RefsAreDeclarations(program, environment, name);
  }

  lemma EdgesAreMentions(program: seq<Declaration>, environment: set<string>, a: string, b: string)
    requires Distinct(program)
    ensures var g := GraphOf(program, environment);
            a in g.refs && b in g.refs && b in g.refs[a] <==> Mentions(program, a, b)
  {
    var g := GraphOf(program, environment);
    RefsAreDeclarations(program, environment, a);
    RefsAreDeclarations(program, environment, b);
    forall d | d in program && d.name == a ensures b in g.refs[a] <==> Occurs(b, d.term) {
      RefsAreOccurrences(program, environment, d, b);
    }
  }

  /** Paths of references to a declaration are trails of mentions. */
  lemma PathsAreTrails(program: seq<Declaration>, environment: set<string>, p: seq<string>, a: string, b: string)
    requires Distinct(program) && Declared(program, b) && IsPath(GraphOf(program, environment), p, a, b)
    ensures Trail(program, p, a, b)
  {
    var g := GraphOf(program, environment);
    RefsAreDeclarations(program, environment, b);
    forall i | 0 <= i < |p| - 1 ensures Mentions(program, p[i], p[i + 1]) {
      assert p[i] in g.refs && p[i + 1] in g.refs[p[i]];
      assert i + 1 < |p| - 1 ==> p[i + 1] in g.refs;
      EdgesAreMentions(program, environment, p[i], p[i + 1]);
    }
  }

  /** In the order of the sort, whatever occurs in a declaration and is declared stands before it, or leads back to it. */
  ghost predicate InOrder(program: seq<Declaration>, order: seq<string>) {
    forall i, d, e | 0 <= i < |order| && d in program && d.name == order[i] && Occurs(e, d.term) && Declared(program, e) ::
      e in order[..i] || LeadsBack(program, e, order[i])
  }

  ghost predicate AllUnderstood(program: seq<Declaration>, environment: set<string>) {
    forall d, e | d in program && Occurs(e, d.term) :: Understood(program, environment, e)
  }

  lemma KnownExactly(program: seq<Declaration>, environment: set<string>)
    requires Distinct(program)
    ensures AllKnown(GraphOf(program, environment)) <==> AllUnderstood(program, environment)
  {
    var g := GraphOf(program, environment);
    forall d, e | d in program ensures d.name in g.refs && (e in g.refs[d.name] <==> Occurs(e, d.term)) {
      RefsAreOccurrences(program, environment, d, e);
    }
    forall e ensures Known(g, e) <==> Understood(program, environment, e) { KnownIsUnderstood(program, environment, e); }
    if AllUnderstood(program, environment) {
      forall name, e | name in g.refs && e in g.refs[name] ensures Known(g, e) {
        RefsAreDeclarations(program, environment, name);
        var d :| d in program && d.name == name;
        assert Occurs(e, d.term);
      }
    }
    if AllKnown(g) {
      forall d, e | d in program && Occurs(e, d.term) ensures Understood(program, environment, e) {
        RefsAreOccurrences(program, environment, d, e);
      }
    }
  }

  lemma OrderedIsInOrder(program: seq<Declaration>, environment: set<string>, order: seq<string>)
    requires Distinct(program) && Ordered(GraphOf(program, environment), order)
    ensures InOrder(program, order)
  {
    var g := GraphOf(program, environment);
    forall i, d, e | 0 <= i < |order| && d in program && d.name == order[i] && Occurs(e, d.term) && Declared(program, e)
      ensures e in order[..i] || LeadsBack(program, e, order[i])
    {
      RefsAreOccurrences(program, environment, d, e);
      RefsAreDeclarations(program, environment, e);
      if e !in order[..i] {
        var p :| IsPath(g, p, e, order[i]);
        assert Declared(program, order[i]);
        PathsAreTrails(program, environment, p, e, order[i]);
      }
    }
  }

  /**
   * The sort succeeds exactly when every name that occurs in a declaration is understood, and otherwise
   * names one that is not; it lists every declaration once, behind each one that occurs in it and does
   * not lead back to it.
   */
  lemma SortIsByOccurrence(program: seq<Declaration>, environment: set<string>)
    requires Distinct(program)
    ensures var r := SortedNames(program, environment);
            && (r.Visited? <==> AllUnderstood(program, environment))
            && (r.Unknown? ==> !Understood(program, environment, r.name) && exists d :: d in program && Occurs(r.name, d.term))
            && (r.Visited? ==>
                  && (forall i, j | 0 <= i < j < |r.visit.order| :: r.visit.order[i] != r.visit.order[j])
                  && (forall name :: name in r.visit.order <==> Declared(program, name))
                  && InOrder(program, r.visit.order))
  {
    var g, r := GraphOf(program, environment), SortedNames(program, environment);
    SortIsTopological(program, environment);
    KnownExactly(program, environment);
    if r.Visited? {
      OrderedIsInOrder(program, environment, r.visit.order);
      forall name ensures name in r.visit.order <==> Declared(program, name) {
        RefsAreDeclarations(program, environment, name);
        assert name in r.visit.order <==> name in Elements(r.visit.order);
      }
    } else {
      KnownIsUnderstood(program, environment, r.name);
      var name :| name in g.refs && r.name in g.refs[name];
      RefsAreDeclarations(program, environment, name);
      var d :| d in program && d.name == name;
      RefsAreOccurrences(program, environment, d, r.name);
    }
  }
}
