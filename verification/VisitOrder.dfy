/**
 * The depth-first visit, exactly: what it enters is what can be reached past what was entered before,
 * and it lists each declaration behind its references and under the first name that leads to it.
 */
module VisitOrder {
  import opened Topology

  /** A way from one declaration to another through declarations that have not been entered. */
  ghost predicate Way(g: Graph, seen: set<string>, p: seq<string>, a: string, b: string) {
    IsPath(g, p, a, b) && forall i | 0 <= i < |p| :: p[i] in g.refs && p[i] !in seen
  }

  ghost predicate Finds(g: Graph, seen: set<string>, a: string, b: string) {
    exists p :: Way(g, seen, p, a, b)
  }

  /** One of the first `k` names leads there. */
  ghost predicate FoundBy(g: Graph, seen: set<string>, names: seq<string>, k: nat, x: string) {
    exists i :: 0 <= i < k && i < |names| && Finds(g, seen, names[i], x)
  }

  lemma WayOn(g: Graph, seen: set<string>, p: seq<string>, a: string, b: string, q: seq<string>, c: string)
    requires Way(g, seen, p, a, b) && Way(g, seen, q, b, c)
    ensures Finds(g, seen, a, c)
  {
    var r := p + q[1..];
    assert IsPath(g, r, a, c) by {
      forall i | 0 <= i < |r| - 1 ensures r[i] in g.refs && r[i + 1] in g.refs[r[i]] {
        if i >= |p| - 1 { assert r[i] == q[i - (|p| - 1)] && r[i + 1] == q[i - (|p| - 1) + 1]; }
      }
    }
    assert Way(g, seen, r, a, c);
  }

  lemma Suffix(g: Graph, seen: set<string>, p: seq<string>, a: string, b: string, j: nat)
    requires Way(g, seen, p, a, b) && j < |p|
    ensures Way(g, seen, p[j..], p[j], b)
  {
    var q := p[j..];
    forall i | 0 <= i < |q| - 1 ensures q[i] in g.refs && q[i + 1] in g.refs[q[i]] {
      assert q[i] == p[i + j] && q[i + 1] == p[i + j + 1];
    }
  }

  lemma Prefix(g: Graph, seen: set<string>, p: seq<string>, a: string, b: string, j: nat)
    requires Way(g, seen, p, a, b) && j < |p|
    ensures Way(g, seen, p[..j + 1], a, p[j])
  {
  }

  lemma FindsItself(g: Graph, seen: set<string>, a: string)
    requires a in g.refs && a !in seen
    ensures Finds(g, seen, a, a)
  {
    assert Way(g, seen, [a], a, a);
  }

  /** A way from `a` leaves it for the last time to one of its references. */
  lemma {:induction false} LeavesFor(g: Graph, seen: set<string>, p: seq<string>, a: string, b: string) returns (e: string)
    requires Way(g, seen, p, a, b) && a != b
    ensures e in g.refs[a] && Finds(g, seen + {a}, e, b)
    decreases |p|
  {
    if j :| 0 < j < |p| && p[j] == a {
      Suffix(g, seen, p, a, b, j);
      e := LeavesFor(g, seen, p[j..], a, b);
    } else {
      e := p[1];
      Suffix(g, seen, p, a, b, 1);
      assert Way(g, seen + {a}, p[1..], e, b);
    }
  }

  lemma ComesTo(g: Graph, seen: set<string>, a: string, e: string, b: string)
    requires a in g.refs && a !in seen && e in g.refs[a] && Finds(g, seen + {a}, e, b)
    ensures Finds(g, seen, a, b)
  {
    var p :| Way(g, seen + {a}, p, e, b);
    var q := [a] + p;
    assert IsPath(g, q, a, b) by {
      forall i | 0 <= i < |q| - 1 ensures q[i] in g.refs && q[i + 1] in g.refs[q[i]] {
        if i > 0 { assert q[i] == p[i - 1] && q[i + 1] == p[i]; }
      }
    }
    assert Way(g, seen, q, a, b);
  }

  lemma FewerSeen(g: Graph, seen: set<string>, more: set<string>, a: string, b: string)
    requires seen <= more && Finds(g, more, a, b)
    ensures Finds(g, seen, a, b)
  {
    var p :| Way(g, more, p, a, b);
    assert Way(g, seen, p, a, b);
  }

  /** What `first` finds has been entered; another way runs into that, or past it. */
  lemma IntoOrPast(g: Graph, seen: set<string>, more: set<string>, first: string, a: string, b: string)
    requires forall x :: x in more <==> x in seen || Finds(g, seen, first, x)
    requires Finds(g, seen, a, b)
    ensures Finds(g, seen, first, b) || Finds(g, more, a, b)
  {
    var p :| Way(g, seen, p, a, b);
    if j :| 0 <= j < |p| && p[j] in more {
      var q :| Way(g, seen, q, first, p[j]);
      Suffix(g, seen, p, a, b, j);
      WayOn(g, seen, q, first, p[j], p[j..], b);
    } else {
      assert Way(g, more, p, a, b);
    }
  }

  // ----- what is entered -----

  ghost predicate Enters(g: Graph, v: Visit, names: seq<string>, w: Visit) {
    forall x :: x in w.visited <==> x in v.visited || FoundBy(g, v.visited, names, |names|, x)
  }

  lemma NothingEntered(g: Graph, v: Visit, name: string)
    requires name !in g.refs || name in v.visited
    ensures forall x :: !Finds(g, v.visited, name, x)
  {
  }

  /** A declaration enters itself, and what its references find past it. */
  lemma EntersBehind(g: Graph, v: Visit, name: string, entered: Visit, w: Visit)
    requires name in g.refs && name !in v.visited && entered.visited == v.visited + {name}
    requires Enters(g, entered, g.refs[name], w)
    ensures forall x :: x in w.visited <==> x in v.visited || Finds(g, v.visited, name, x)
  {
    var refs := g.refs[name];
    FindsItself(g, v.visited, name);
    forall x ensures x in w.visited <==> x in v.visited || Finds(g, v.visited, name, x) {
      if FoundBy(g, entered.visited, refs, |refs|, x) {
        var i :| 0 <= i < |refs| && Finds(g, entered.visited, refs[i], x);
        ComesTo(g, v.visited, name, refs[i], x);
      }
      if x != name && Finds(g, v.visited, name, x) {
        var p :| Way(g, v.visited, p, name, x);
        var e := LeavesFor(g, v.visited, p, name, x);
        var i :| 0 <= i < |refs| && refs[i] == e;
        assert FoundBy(g, entered.visited, refs, |refs|, x);
      }
    }
  }

  /** One name after another. */
  lemma EntersNext(g: Graph, v: Visit, names: seq<string>, u: Visit, w: Visit)
    requires names != [] && (forall x :: x in u.visited <==> x in v.visited || Finds(g, v.visited, names[0], x))
    requires Enters(g, u, names[1..], w)
    ensures Enters(g, v, names, w)
  {
    var rest := names[1..];
    forall x ensures x in w.visited <==> x in v.visited || FoundBy(g, v.visited, names, |names|, x) {
      if FoundBy(g, u.visited, rest, |rest|, x) {
        FoundBefore(g, v.visited, u.visited, names, |rest|, x);
      }
      if FoundBy(g, v.visited, names, |names|, x) && x !in u.visited {
        FoundAfter(g, v.visited, u.visited, names, |rest|, x);
      }
    }
  }

  lemma FoundBefore(g: Graph, seen: set<string>, more: set<string>, names: seq<string>, k: nat, x: string)
    requires names != [] && seen <= more && FoundBy(g, more, names[1..], k, x)
    ensures FoundBy(g, seen, names, k + 1, x)
  {
    var i :| 0 <= i < k && i < |names[1..]| && Finds(g, more, names[1..][i], x);
    FewerSeen(g, seen, more, names[i + 1], x);
  }

  lemma FoundAfter(g: Graph, seen: set<string>, more: set<string>, names: seq<string>, k: nat, x: string)
    requires names != [] && (forall y :: y in more <==> y in seen || Finds(g, seen, names[0], y))
    requires x !in more && FoundBy(g, seen, names, k + 1, x)
    ensures FoundBy(g, more, names[1..], k, x)
  {
    var i :| 0 <= i < k + 1 && i < |names| && Finds(g, seen, names[i], x);
    IntoOrPast(g, seen, more, names[0], names[i], x);
    assert names[1..][i - 1] == names[i];
  }

  // ----- the order -----

  /** The declarations newly listed are newly entered, and earlier ones are found no later than later ones. */
  ghost predicate Lists(g: Graph, v: Visit, names: seq<string>, w: Visit, news: seq<string>) {
    && w.order == v.order + news
    && (forall x | x in news :: x !in v.visited && x in w.visited)
    && forall a, b, k: nat | 0 <= a < b < |news| && FoundBy(g, v.visited, names, k, news[b]) :: FoundBy(g, v.visited, names, k, news[a])
  }

  lemma FoundFirst(g: Graph, seen: set<string>, names: seq<string>, k: nat, x: string)
    requires names != [] && k > 0 && Finds(g, seen, names[0], x)
    ensures FoundBy(g, seen, names, k, x)
  {
  }

  lemma ListsNext(g: Graph, v: Visit, names: seq<string>, u: Visit, first: seq<string>, w: Visit, news: seq<string>)
    requires names != [] && (forall x :: x in u.visited <==> x in v.visited || Finds(g, v.visited, names[0], x))
    requires u.order == v.order + first && (forall x | x in first :: x !in v.visited && x in u.visited)
    requires Lists(g, u, names[1..], w, news) && u.visited <= w.visited
    ensures Lists(g, v, names, w, first + news)
  {
    var all, n := first + news, |first|;
    forall a, b, k: nat | 0 <= a < b < |all| && FoundBy(g, v.visited, names, k, all[b])
      ensures FoundBy(g, v.visited, names, k, all[a])
    {
      if a < n {
        assert all[a] in first;
        FoundFirst(g, v.visited, names, k, all[a]);
      } else {
        assert all[b] in news && k > 0;
        FoundAfter(g, v.visited, u.visited, names, k - 1, all[b]);
        assert FoundBy(g, u.visited, names[1..], k - 1, news[a - n]);
        FoundBefore(g, v.visited, u.visited, names, k - 1, all[a]);
      }
    }
  }

  /** The visit of names, entered and listed. */
  lemma {:induction false} NamesInOrder(g: Graph, names: seq<string>, v: Visit) returns (news: seq<string>)
    requires NamesVisited(g, names, v).Visited?
    ensures Enters(g, v, names, NamesVisited(g, names, v).visit) && Lists(g, v, names, NamesVisited(g, names, v).visit, news)
    decreases |Unvisited(g, v)|, 2, |names|
  {
    if names == [] {
      news := [];
    } else {
      var u, w := NameVisited(g, names[0], v).visit, NamesVisited(g, names, v).visit;
      var first := NameInOrder(g, names[0], v);
      Smaller(Unvisited(g, u), Unvisited(g, v));
      var later := NamesInOrder(g, names[1..], u);
      EntersNext(g, v, names, u, w);
      ListsNext(g, v, names, u, first, w, later);
      news := first + later;
    }
  }

  lemma {:induction false} NameInOrder(g: Graph, name: string, v: Visit) returns (news: seq<string>)
    requires NameVisited(g, name, v).Visited?
    ensures var w := NameVisited(g, name, v).visit;
            && (forall x :: x in w.visited <==> x in v.visited || Finds(g, v.visited, name, x))
            && w.order == v.order + news && (forall x | x in news :: x !in v.visited && x in w.visited)
    decreases |Unvisited(g, v)|, 1, 0
  {
    if name !in g.refs || name in v.visited {
      NothingEntered(g, v, name);
      news := [];
    } else {
      var behind := DeclarationInOrder(g, name, v);
      news := behind + [name];
    }
  }

  /** A declaration is listed behind everything its references find past it. */
  lemma {:induction false} DeclarationInOrder(g: Graph, name: string, v: Visit) returns (behind: seq<string>)
    requires name in g.refs && name !in v.visited && DeclarationVisited(g, name, v).Visited?
    ensures var w, entered := DeclarationVisited(g, name, v).visit, v.(visited := v.visited + {name});
            && (forall x :: x in w.visited <==> x in v.visited || Finds(g, v.visited, name, x))
            && w.order == v.order + behind + [name]
            && Lists(g, entered, g.refs[name], w.(order := v.order + behind), behind)
    decreases |Unvisited(g, v)|, 0, 0
  {
    var entered := v.(visited := v.visited + {name});
    assert name in Unvisited(g, v) && Unvisited(g, entered) == Unvisited(g, v) - {name};
    behind := NamesInOrder(g, g.refs[name], entered);
    EntersBehind(g, v, name, entered, NamesVisited(g, g.refs[name], entered).visit);
  }
}
