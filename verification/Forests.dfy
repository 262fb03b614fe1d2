// Child relations: every node has at most one parent.
module Forests {

  /** A child relation with levels strictly rising away from the roots. */
  ghost predicate Levelled<K>(parent: map<K, K>, level: map<K, nat>) {
    forall x <- parent ::
      x in level && parent[x] in level && level[parent[x]] < level[x]
  }

  /** Following parents for k steps, where there are that many. */
  ghost function Ancestor<K>(parent: map<K, K>, x: K, k: nat): K {
    if k == 0 || x !in parent then x else Ancestor(parent, parent[x], k - 1)
  }

  ghost predicate HasAncestor<K>(parent: map<K, K>, x: K, k: nat) {
    k > 0 ==> x in parent && HasAncestor(parent, parent[x], k - 1)
  }

  /** From x, k steps up lead to y. */
  ghost predicate Path<K>(parent: map<K, K>, x: K, k: nat, y: K) {
    HasAncestor(parent, x, k) && Ancestor(parent, x, k) == y
  }

  /** x is y, or somewhere below it. */
  ghost predicate Under<K(!new)>(parent: map<K, K>, x: K, y: K) {
    exists k: nat :: Path(parent, x, k, y)
  }

  /** No node is its own ancestor. */
  ghost predicate Acyclic<K(!new)>(parent: map<K, K>) {
    forall x, k: nat :: Path(parent, x, k, x) ==> k == 0
  }

  lemma {:induction false} PathConcat<K>(parent: map<K, K>, x: K, j: nat, y: K, k: nat, z: K)
    requires Path(parent, x, j, y) && Path(parent, y, k, z)
    ensures Path(parent, x, j + k, z)
    decreases j
  {
    if j > 0 {
      PathConcat(parent, parent[x], j - 1, y, k, z);
    }
  }

  lemma {:induction false} PathLast<K>(parent: map<K, K>, x: K, k: nat, y: K) returns (c: K)
    requires Path(parent, x, k, y) && k > 0
    ensures Path(parent, x, k - 1, c) && c in parent && parent[c] == y
    decreases k
  {
    if k == 1 {
      c := x;
    } else {
      c := PathLast(parent, parent[x], k - 1, y);
    }
  }

  ghost predicate Within<K>(small: map<K, K>, large: map<K, K>) {
    forall x <- small :: x in large && large[x] == small[x]
  }

  lemma {:induction false} PathWithin<K>(small: map<K, K>, large: map<K, K>, x: K, k: nat, y: K)
    requires Within(small, large) && Path(small, x, k, y)
    ensures Path(large, x, k, y)
    decreases k
  {
    if k > 0 {
      PathWithin(small, large, small[x], k - 1, y);
    }
  }

  lemma AcyclicWithin<K(!new)>(small: map<K, K>, large: map<K, K>)
    requires Within(small, large) && Acyclic(large)
    ensures Acyclic(small)
  {
    forall x, k: nat | Path(small, x, k, x) ensures k == 0 {
      PathWithin(small, large, x, k, x);
    }
  }

  /** Once a root a has got the parent p, that is not below it, a path is an old one or
      leads up to a and on from p. */
  lemma {:induction false} PathAfterAttaching<K(!new)>(parent: map<K, K>, a: K, p: K, x: K, k: nat, y: K)
    requires a !in parent && !Under(parent, p, a) && Path(parent[a := p], x, k, y)
    ensures Path(parent, x, k, y) || (Under(parent, x, a) && Under(parent, p, y))
    decreases k
  {
    if k > 0 {
      var up := parent[a := p][x];
      PathAfterAttaching(parent, a, p, up, k - 1, y);
      if x == a {
        assert Path(parent, a, 0, a);
        assert Path(parent, p, k - 1, y) ==> Under(parent, p, y);
      } else if Under(parent, up, a) {
        var j: nat :| Path(parent, up, j, a);
        assert Path(parent, x, j + 1, a);
      }
    }
  }

  lemma AttachingKeepsAcyclic<K(!new)>(parent: map<K, K>, a: K, p: K)
    requires a !in parent && Acyclic(parent) && !Under(parent, p, a)
    ensures Acyclic(parent[a := p])
  {
    var after := parent[a := p];
    forall x, k: nat | Path(after, x, k, x) ensures k == 0 {
      PathAfterAttaching(parent, a, p, x, k, x);
      if !Path(parent, x, k, x) {
        var i: nat :| Path(parent, p, i, x);
        var j: nat :| Path(parent, x, j, a);
        PathConcat(parent, p, i, x, j, a);
        assert false;
      }
    }
  }

  /** Where parents have no parents, there is no cycle. */
  lemma FlatIsAcyclic<K(!new)>(parent: map<K, K>)
    requires forall x <- parent :: parent[x] !in parent
    ensures Acyclic(parent)
  {
    forall x, k: nat | Path(parent, x, k, x) ensures k == 0 {
      if k > 0 {
        assert Ancestor(parent, parent[x], k - 1) == parent[x];
      }
    }
  }

  /** Whoever is k steps above is at least k levels lower. */
  lemma {:induction false} AncestorsAreLower<K>(parent: map<K, K>, level: map<K, nat>, x: K, k: nat)
    requires Levelled(parent, level) && k > 0 && HasAncestor(parent, x, k)
    ensures x in level && Ancestor(parent, x, k) in level && level[Ancestor(parent, x, k)] + k <= level[x]
    decreases k
  {
    if k > 1 {
      AncestorsAreLower(parent, level, parent[x], k - 1);
    }
  }
}
