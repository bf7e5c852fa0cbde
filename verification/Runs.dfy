/** Runs of a transition system: a state, and the labels of the steps to perform from it. */
module Runs {

  datatype Option<+T> = None | Some(value: T)

  /** The state after performing the steps one after the other; None if one is not possible. */
  function Exec<S, L>(next: (S, L) -> Option<S>, s: S, steps: seq<L>): Option<S>
  {
    if steps == [] then Some(s) else
    match Exec(next, s, steps[..|steps| - 1])
    case None => None
    case Some(q) => next(q, steps[|steps| - 1])
  }

  /** Stretches of a run, one after the other. */
  function Flat<L>(parts: seq<seq<L>>): seq<L> {
    if parts == [] then [] else Flat(parts[..|parts| - 1]) + parts[|parts| - 1]
  }

  lemma ExecSnoc<S, L>(next: (S, L) -> Option<S>, s: S, steps: seq<L>, q: S, l: L)
    requires Exec(next, s, steps) == Some(q)
    ensures Exec(next, s, steps + [l]) == next(q, l)
  {
    assert (steps + [l])[..|steps|] == steps;
  }

  lemma {:induction false} ExecAppend<S, L>(next: (S, L) -> Option<S>, s: S, a: seq<L>, q: S, b: seq<L>)
    requires Exec(next, s, a) == Some(q)
    ensures Exec(next, s, a + b) == Exec(next, q, b)
  {
    if b == [] {
      assert a + b == a;
    } else {
      var k := |b| - 1;
      assert (a + b)[..|a| + k] == a + b[..k];
      ExecAppend(next, s, a, q, b[..k]);
    }
  }

  lemma Chain2<S, L>(next: (S, L) -> Option<S>, s: S, a: L, s1: S, b: L, s2: S)
    requires next(s, a) == Some(s1) && next(s1, b) == Some(s2)
    ensures Exec(next, s, [a, b]) == Some(s2)
  {
    ExecSnoc(next, s, [], s, a);
    ExecSnoc(next, s, [] + [a], s1, b);
    assert [] + [a] + [b] == [a, b];
  }

  lemma Chain3<S, L>(next: (S, L) -> Option<S>, s: S, a: L, s1: S, b: L, s2: S, c: L, s3: S)
    requires next(s, a) == Some(s1) && next(s1, b) == Some(s2) && next(s2, c) == Some(s3)
    ensures Exec(next, s, [a, b, c]) == Some(s3)
  {
    Chain2(next, s, a, s1, b, s2);
    ExecSnoc(next, s, [a, b], s2, c);
    assert [a, b] + [c] == [a, b, c];
  }

  lemma Chain4<S, L>(next: (S, L) -> Option<S>, s: S, a: L, s1: S, b: L, s2: S, c: L, s3: S, d: L, s4: S)
    requires next(s, a) == Some(s1) && next(s1, b) == Some(s2) && next(s2, c) == Some(s3) && next(s3, d) == Some(s4)
    ensures Exec(next, s, [a, b, c, d]) == Some(s4)
  {
    Chain3(next, s, a, s1, b, s2, c, s3);
    ExecSnoc(next, s, [a, b, c], s3, d);
    assert [a, b, c] + [d] == [a, b, c, d];
  }
}
