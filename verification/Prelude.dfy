/** Small vocabulary shared by every other module. */
module Prelude {
  datatype Option<+T> = None | Some(value: T)

  datatype Attempt<+T, +E> = Success(value: T) | Refusal(error: E)

  /** File contents, raw config text and secret values are byte strings, as in Go. */
  type Byte = b: int | 0 <= b < 256
  type Bytes = seq<Byte>

  function Lookup<K, V>(m: map<K, V>, k: K): Option<V> {
    if k in m then Some(m[k]) else None
  }

  /** `append` over a loop: the concatenation of f(s[0]), f(s[1]), ... */
  function FlatMap<T, U>(f: T -> seq<U>, s: seq<T>): seq<U> {
    if s == [] then [] else FlatMap(f, s[..|s| - 1]) + f(s[|s| - 1])
  }

  lemma {:induction false} FlatMapMembers<T, U(!new)>(f: T -> seq<U>, s: seq<T>)
    ensures forall y :: y in FlatMap(f, s) <==> exists i :: 0 <= i < |s| && y in f(s[i])
  {
    if s != [] {
      var front := s[..|s| - 1];
      FlatMapMembers(f, front);
      forall y ensures y in FlatMap(f, s) <==> exists i :: 0 <= i < |s| && y in f(s[i]) {
        if y in FlatMap(f, front) {
          var i :| 0 <= i < |front| && y in f(front[i]);
          assert s[i] == front[i];
        }
        if i :| 0 <= i < |s| && y in f(s[i]) {
          if i < |front| { assert front[i] == s[i]; }
        }
      }
    }
  }

  lemma {:induction false} FlatMapEmpty<T, U(!new)>(f: T -> seq<U>, s: seq<T>)
    ensures FlatMap(f, s) == [] <==> forall i :: 0 <= i < |s| ==> f(s[i]) == []
  {
    if s != [] {
      var front := s[..|s| - 1];
      FlatMapEmpty(f, front);
      assert forall i :: 0 <= i < |front| ==> front[i] == s[i];
      if FlatMap(f, s) == [] {
        assert FlatMap(f, front) == [] && f(s[|s| - 1]) == [];
        forall i | 0 <= i < |s| ensures f(s[i]) == [] {
          if i < |front| { assert f(front[i]) == []; }
        }
      }
      if forall i :: 0 <= i < |s| ==> f(s[i]) == [] {
        forall i | 0 <= i < |front| ensures f(front[i]) == [] { assert f(s[i]) == []; }
      }
    }
  }

  lemma {:induction false} FlatMapAppend<T, U>(f: T -> seq<U>, a: seq<T>, b: seq<T>)
    ensures FlatMap(f, a + b) == FlatMap(f, a) + FlatMap(f, b)
  {
    if b == [] {
      assert a + b == a;
    } else {
      FlatMapAppend(f, a, b[..|b| - 1]);
      assert (a + b)[..|a + b| - 1] == a + b[..|b| - 1];
    }
  }

  lemma {:induction false} FlatMapCongruent<T, U>(f: T -> seq<U>, g: T -> seq<U>, s: seq<T>)
    requires forall i :: 0 <= i < |s| ==> f(s[i]) == g(s[i])
    ensures FlatMap(f, s) == FlatMap(g, s)
  {
    if s != [] {
      var front := s[..|s| - 1];
      forall i | 0 <= i < |front| ensures f(front[i]) == g(front[i]) { assert front[i] == s[i]; }
      FlatMapCongruent(f, g, front);
    }
  }

  /** Equal concatenations of pieces of equal lengths have equal pieces. */
  lemma {:induction false} FlatMapAligned<T, U>(f: T -> seq<U>, g: T -> seq<U>, s: seq<T>)
    requires forall i :: 0 <= i < |s| ==> |f(s[i])| == |g(s[i])|
    requires FlatMap(f, s) == FlatMap(g, s)
    ensures forall i :: 0 <= i < |s| ==> f(s[i]) == g(s[i])
  {
    if s != [] {
      var front, x := s[..|s| - 1], s[|s| - 1];
      forall i | 0 <= i < |front| ensures |f(front[i])| == |g(front[i])| { assert front[i] == s[i]; }
      var a, b := FlatMap(f, front), FlatMap(g, front);
      assert |f(x)| == |g(x)|;
      assert a + f(x) == b + g(x);
      assert |a| == |b|;
      assert a == (a + f(x))[..|a|] == (b + g(x))[..|a|] == b;
      assert f(x) == (a + f(x))[|a|..] == (b + g(x))[|a|..] == g(x);
      FlatMapAligned(f, g, front);
      forall i | 0 <= i < |s| ensures f(s[i]) == g(s[i]) {
        if i < |front| { assert front[i] == s[i]; }
      }
    }
  }
}
