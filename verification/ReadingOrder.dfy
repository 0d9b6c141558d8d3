/**
 * In which order the visit of a term meets its names: as they are read. A place in a term is the way
 * down to it by numbers, and places are read like words in a dictionary.
 */
module ReadingOrder {
  import opened Topology
  import opened References

  /** An expression's index in a term, then a part's index in that expression, and so on down. */
  type Place = seq<nat>

  /** The terms an expression is made of, as they are written. */
  function Parts(e: Expression): (r: seq<Term>)
    ensures forall t | t in r :: PartOf(t, e)
  {
    match e
    case Alternation(arms) => arms
    case AnonymousTerm(t) => [t]
    case If(c, yes, no) => [c, yes, no]
    case While(c, b) => [c, b]
    case Forever(b) => [b]
    case Repeat(_, b) => [b]
    case _ => []
  }

  predicate StandsIn(p: Place, t: Term, name: string)
    decreases |p|
  {
    p != [] && p[0] < |t.expressions| && StandsInside(p[1..], t.expressions[p[0]], name)
  }

  predicate StandsInside(p: Place, e: Expression, name: string)
    decreases |p|
  {
    if p == [] then IsName(e, name) else p[0] < |Parts(e)| && StandsIn(p[1..], Parts(e)[p[0]], name)
  }

  /** The first difference decides. */
  predicate ReadBefore(p: Place, q: Place) {
    p != [] && q != [] && (p[0] < q[0] || (p[0] == q[0] && ReadBefore(p[1..], q[1..])))
  }

  ghost predicate InOrder(ps: seq<Place>) {
    forall i, j | 0 <= i < j < |ps| :: ReadBefore(ps[i], ps[j])
  }

  // ----- the places of all names, part by part -----

  function Under(k: nat, ps: seq<Place>): (r: seq<Place>)
    ensures |r| == |ps|
  {
    seq(|ps|, i requires 0 <= i < |ps| => [k] + ps[i])
  }

  function PlacesUpTo(t: Term, k: nat): seq<Place>
    requires k <= |t.expressions|
    decreases t, 0, k
  {
    if k == 0 then [] else PlacesUpTo(t, k - 1) + Under(k - 1, PlacesInside(t.expressions[k - 1]))
  }

  function PlacesInside(e: Expression): seq<Place>
    decreases e, 1, 0
  {
    if e.NamedTermApp? || e.NamedTermRef? then [[]] else PlacesInParts(e, |Parts(e)|)
  }

  function PlacesInParts(e: Expression, k: nat): seq<Place>
    requires k <= |Parts(e)|
    decreases e, 0, k
  {
    if k == 0 then []
    else
      PartIsSmaller(Parts(e)[k - 1], e);
      PlacesInParts(e, k - 1) + Under(k - 1, PlacesUpTo(Parts(e)[k - 1], |Parts(e)[k - 1].expressions|))
  }

  function NamesInParts(e: Expression, k: nat): seq<string>
    requires k <= |Parts(e)|
  {
    if k == 0 then [] else NamesInParts(e, k - 1) + NamesOf(Parts(e)[k - 1])
  }

  lemma {:induction false} ArmsAreParts(e: Expression, k: nat)
    requires e.Alternation? && k <= |e.arms|
    ensures NamesOfArms(e, k) == NamesInParts(e, k)
  {
    if k > 0 { ArmsAreParts(e, k - 1); }
  }

  lemma NamesAreInParts(e: Expression)
    requires !e.NamedTermApp? && !e.NamedTermRef?
    ensures NamesOfExpression(e) == NamesInParts(e, |Parts(e)|)
  {
    match e
    case Alternation(arms) => ArmsAreParts(e, |arms|);
    case If(c, yes, no) =>
      assert NamesInParts(e, 1) == NamesOf(c) && NamesInParts(e, 2) == NamesOf(c) + NamesOf(yes);
    case While(c, b) => assert NamesInParts(e, 1) == NamesOf(c);
    case _ =>
  }

  // ----- the three things to show of a list of places -----

  /** In reading order, each with the head below `k`. */
  ghost predicate Below(ps: seq<Place>, k: nat) {
    InOrder(ps) && forall i | 0 <= i < |ps| :: ps[i] != [] && ps[i][0] < k
  }

  lemma JoinBelow(ps: seq<Place>, k: nat, qs: seq<Place>)
    requires Below(ps, k) && InOrder(qs)
    ensures Below(ps + Under(k, qs), k + 1)
  {
    var all, n := ps + Under(k, qs), |ps|;
    forall i, j | 0 <= i < j < |all| ensures ReadBefore(all[i], all[j]) {
      if i < n && j < n {
        assert ReadBefore(ps[i], ps[j]);
      } else if i >= n {
        assert all[i][1..] == qs[i - n] && all[j][1..] == qs[j - n] && ReadBefore(qs[i - n], qs[j - n]);
      }
    }
  }

  lemma {:induction false} TermInOrder(t: Term, k: nat)
    requires k <= |t.expressions|
    ensures Below(PlacesUpTo(t, k), k)
    decreases t, 0, k
  {
    if k > 0 {
      TermInOrder(t, k - 1);
      InsideInOrder(t.expressions[k - 1]);
      JoinBelow(PlacesUpTo(t, k - 1), k - 1, PlacesInside(t.expressions[k - 1]));
    }
  }

  lemma {:induction false} InsideInOrder(e: Expression)
    ensures InOrder(PlacesInside(e))
    decreases e, 1, 0
  {
    if !e.NamedTermApp? && !e.NamedTermRef? { PartsInOrder(e, |Parts(e)|); }
  }

  lemma {:induction false} PartsInOrder(e: Expression, k: nat)
    requires k <= |Parts(e)|
    ensures Below(PlacesInParts(e, k), k)
    decreases e, 0, k
  {
    if k > 0 {
      var t := Parts(e)[k - 1];
      PartsInOrder(e, k - 1);
      PartIsSmaller(t, e);
      TermInOrder(t, |t.expressions|);
      JoinBelow(PlacesInParts(e, k - 1), k - 1, PlacesUpTo(t, |t.expressions|));
    }
  }

  /** Each place is that of the name listed with it. */
  ghost predicate PlacesOf(ps: seq<Place>, t: Term, names: seq<string>) {
    |ps| == |names| && forall i | 0 <= i < |ps| :: StandsIn(ps[i], t, names[i])
  }

  ghost predicate PlacesInsideOf(ps: seq<Place>, e: Expression, names: seq<string>) {
    |ps| == |names| && forall i | 0 <= i < |ps| :: StandsInside(ps[i], e, names[i])
  }

  lemma JoinPlaces(ps: seq<Place>, t: Term, names: seq<string>, k: nat, qs: seq<Place>, more: seq<string>)
    requires PlacesOf(ps, t, names) && k < |t.expressions| && PlacesInsideOf(qs, t.expressions[k], more)
    ensures PlacesOf(ps + Under(k, qs), t, names + more)
  {
    var all, n := ps + Under(k, qs), |ps|;
    forall i | n <= i < |all| ensures StandsIn(all[i], t, (names + more)[i]) {
      assert all[i][1..] == qs[i - n];
    }
  }

  lemma JoinPlacesInside(ps: seq<Place>, e: Expression, names: seq<string>, k: nat, qs: seq<Place>, more: seq<string>)
    requires PlacesInsideOf(ps, e, names) && k < |Parts(e)| && PlacesOf(qs, Parts(e)[k], more)
    ensures PlacesInsideOf(ps + Under(k, qs), e, names + more)
  {
    var all, n := ps + Under(k, qs), |ps|;
    forall i | n <= i < |all| ensures StandsInside(all[i], e, (names + more)[i]) {
      assert all[i][1..] == qs[i - n];
    }
  }

  lemma {:induction false} TermPlaces(t: Term, k: nat)
    requires k <= |t.expressions|
    ensures PlacesOf(PlacesUpTo(t, k), t, NamesOfAll(t, k))
    decreases t, 0, k
  {
    if k > 0 {
      TermPlaces(t, k - 1);
      InsidePlaces(t.expressions[k - 1]);
      JoinPlaces(PlacesUpTo(t, k - 1), t, NamesOfAll(t, k - 1), k - 1, PlacesInside(t.expressions[k - 1]), NamesOfExpression(t.expressions[k - 1]));
    }
  }

  lemma {:induction false} InsidePlaces(e: Expression)
    ensures PlacesInsideOf(PlacesInside(e), e, NamesOfExpression(e))
    decreases e, 1, 0
  {
    if !e.NamedTermApp? && !e.NamedTermRef? {
      PartPlaces(e, |Parts(e)|);
      NamesAreInParts(e);
    }
  }

  lemma {:induction false} PartPlaces(e: Expression, k: nat)
    requires k <= |Parts(e)|
    ensures PlacesInsideOf(PlacesInParts(e, k), e, NamesInParts(e, k))
    decreases e, 0, k
  {
    if k > 0 {
      var t := Parts(e)[k - 1];
      PartPlaces(e, k - 1);
      PartIsSmaller(t, e);
      TermPlaces(t, |t.expressions|);
      JoinPlacesInside(PlacesInParts(e, k - 1), e, NamesInParts(e, k - 1), k - 1, PlacesUpTo(t, |t.expressions|), NamesOf(t));
    }
  }

  /** And no place is left out. */
  lemma {:induction false} InTerm(p: Place, t: Term, name: string, k: nat)
    requires StandsIn(p, t, name) && p[0] < k <= |t.expressions|
    ensures p in PlacesUpTo(t, k)
    decreases |p|, 0, k
  {
    if p[0] < k - 1 {
      InTerm(p, t, name, k - 1);
    } else {
      InExpression(p[1..], t.expressions[k - 1], name);
      IsUnder(p, k - 1, PlacesInside(t.expressions[k - 1]));
    }
  }

  lemma IsUnder(p: Place, k: nat, ps: seq<Place>)
    requires p != [] && p[0] == k && p[1..] in ps
    ensures p in Under(k, ps)
  {
    var i :| 0 <= i < |ps| && ps[i] == p[1..];
    assert Under(k, ps)[i] == p;
  }

  lemma {:induction false} InExpression(p: Place, e: Expression, name: string)
    requires StandsInside(p, e, name)
    ensures p in PlacesInside(e)
    decreases |p|, 2, 0
  {
    if p != [] { InParts(p, e, name, |Parts(e)|); }
  }

  lemma {:induction false} InParts(p: Place, e: Expression, name: string, k: nat)
    requires p != [] && StandsInside(p, e, name) && p[0] < k <= |Parts(e)|
    ensures p in PlacesInParts(e, k)
    decreases |p|, 1, k
  {
    if p[0] < k - 1 {
      InParts(p, e, name, k - 1);
    } else {
      var t := Parts(e)[k - 1];
      InTerm(p[1..], t, name, |t.expressions|);
      IsUnder(p, k - 1, PlacesUpTo(t, |t.expressions|));
    }
  }

  /** A term's names are visited as they are read: every place at which a name stands, in order. */
  lemma NamesAreReadInOrder(t: Term) returns (ps: seq<Place>)
    ensures PlacesOf(ps, t, NamesOf(t)) && InOrder(ps)
    ensures forall p, name | StandsIn(p, t, name) :: p in ps
  {
    var n := |t.expressions|;
    ps := PlacesUpTo(t, n);
    TermPlaces(t, n);
    TermInOrder(t, n);
    forall p, name | StandsIn(p, t, name) ensures p in ps {
      InTerm(p, t, name, n);
    }
  }
}
