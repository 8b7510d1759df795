/** Finite paths of a transition system, given by the actions taken. */
module Paths {
  /** The actions lead from s to s', each allowed where it is taken. */
  ghost predicate RunsTo<S(!new), A>(next: (S, A, S) -> bool, s: S, acts: seq<A>, s': S)
    decreases |acts|
  {
    if acts == [] then s' == s
    else exists m :: next(s, acts[0], m) && RunsTo(next, m, acts[1..], s')
  }

  lemma {:induction false} Join<S(!new), A>(next: (S, A, S) -> bool, s: S, a: seq<A>, m: S, b: seq<A>, s': S)
    requires RunsTo(next, s, a, m) && RunsTo(next, m, b, s')
    ensures RunsTo(next, s, a + b, s')
    decreases |a|
  {
    if a == [] {
      assert a + b == b;
    } else {
      assert (a + b)[1..] == a[1..] + b && (a + b)[0] == a[0];
      var first :| next(s, a[0], first) && RunsTo(next, first, a[1..], m);
      Join(next, first, a[1..], m, b, s');
    }
  }

  lemma One<S(!new), A>(next: (S, A, S) -> bool, s: S, a: A, s': S)
    requires next(s, a, s')
    ensures RunsTo(next, s, [a], s')
  {
    assert [a][1..] == [] && RunsTo(next, s', [], s');
  }
}
