/** Least fixpoints of a finite propagation graph.

    The guard spreads a fault from its source groups along association rules.  This module says
    what that spread means without saying how it is computed: the intersection of all sets that
    contain the sources and are closed under the edges. */
module Closure {

  /** Names (groups, axes, backends, categories, conditions) are interned: only equality matters. */
  type Name = nat

  type Edge = (Name, Name)

  ghost predicate Closed(s: set<Name>, edges: set<Edge>) {
    forall e | e in edges :: e.0 in s ==> e.1 in s
  }

  /** Every name that could ever be reached: the sources and the heads of the edges. */
  ghost function Universe(sources: set<Name>, edges: set<Edge>): set<Name> {
    sources + set e | e in edges :: e.1
  }

  ghost predicate Bounds(s: set<Name>, sources: set<Name>, edges: set<Edge>) {
    sources <= s && Closed(s, edges)
  }

  ghost function Least(sources: set<Name>, edges: set<Edge>): set<Name> {
    set n | n in Universe(sources, edges) && forall s: set<Name> :: Bounds(s, sources, edges) ==> n in s
  }

  lemma LeastBounds(sources: set<Name>, edges: set<Edge>)
    ensures Bounds(Least(sources, edges), sources, edges)
  {
    var least := Least(sources, edges);
    forall n | n in sources ensures n in least {
      assert n in Universe(sources, edges);
    }
    forall e | e in edges && e.0 in least ensures e.1 in least {
      assert e.1 in Universe(sources, edges);
      forall s: set<Name> | Bounds(s, sources, edges) ensures e.1 in s {
        assert e.0 in s;
      }
    }
  }

  lemma LeastIsLeast(s: set<Name>, sources: set<Name>, edges: set<Edge>)
    requires Bounds(s, sources, edges)
    ensures Least(sources, edges) <= s
  {
  }

  /** A set that is closed, contains the sources and lies inside the least one is the least one. */
  lemma Unique(s: set<Name>, sources: set<Name>, edges: set<Edge>)
    requires Bounds(s, sources, edges) && s <= Least(sources, edges)
    ensures s == Least(sources, edges)
  {
    LeastIsLeast(s, sources, edges);
  }

  /** More sources or more edges never shrink the spread. */
  lemma Monotone(sources: set<Name>, edges: set<Edge>, sources': set<Name>, edges': set<Edge>)
    requires sources <= sources' && edges <= edges'
    ensures Least(sources, edges) <= Least(sources', edges')
  {
    LeastBounds(sources', edges');
    var s := Least(sources', edges');
    assert Closed(s, edges);
    LeastIsLeast(s, sources, edges);
  }

  lemma NoSources(edges: set<Edge>)
    ensures Least({}, edges) == {}
  {
    LeastIsLeast({}, {}, edges);
  }

  // ---- The same set, described by paths ----

  ghost predicate Path(p: seq<Name>, sources: set<Name>, edges: set<Edge>) {
    && |p| > 0
    && p[0] in sources
    && forall i | 0 < i < |p| :: (p[i - 1], p[i]) in edges
  }

  ghost predicate Reached(n: Name, sources: set<Name>, edges: set<Edge>) {
    exists p: seq<Name> :: Path(p, sources, edges) && p[|p| - 1] == n
  }

  lemma {:induction false} PathStaysInside(p: seq<Name>, i: nat, sources: set<Name>, edges: set<Edge>)
    requires Path(p, sources, edges) && i < |p|
    ensures p[i] in Least(sources, edges)
  {
    LeastBounds(sources, edges);
    if i > 0 {
      PathStaysInside(p, i - 1, sources, edges);
      assert (p[i - 1], p[i]) in edges;
    }
  }

  /** A group is in the spread exactly when a chain of edges leads to it from a source. */
  lemma LeastIsReachable(n: Name, sources: set<Name>, edges: set<Edge>)
    ensures n in Least(sources, edges) <==> Reached(n, sources, edges)
  {
    if Reached(n, sources, edges) {
      var p: seq<Name> :| Path(p, sources, edges) && p[|p| - 1] == n;
      PathStaysInside(p, |p| - 1, sources, edges);
    }
    var reached := set m | m in Universe(sources, edges) && Reached(m, sources, edges);
    forall m | m in sources ensures m in reached {
      assert Path([m], sources, edges);
      assert [m][|[m]| - 1] == m;
    }
    forall e | e in edges && e.0 in reached ensures e.1 in reached {
      var p: seq<Name> :| Path(p, sources, edges) && p[|p| - 1] == e.0;
      var q := p + [e.1];
      assert Path(q, sources, edges) by {
        forall i | 0 < i < |q| ensures (q[i - 1], q[i]) in edges {
          if i == |p| { assert (q[i - 1], q[i]) == e; }
        }
      }
      assert q[|q| - 1] == e.1;
    }
    LeastIsLeast(reached, sources, edges);
  }
}
