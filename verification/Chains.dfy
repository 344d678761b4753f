/** Steps one after the other, for any step function. */
module Chains {
  import opened Queues

  function Chain<S, T>(f: (S, T) -> Option<S>, s: S, steps: seq<T>): (r: Option<S>)
    decreases |steps|
  {
    if steps == [] then Some(s)
    else
      var r := f(s, steps[0]);
      if r.None? then None else Chain(f, r.value, steps[1..])
  }

  lemma {:induction false} ChainConcat<S, T>(f: (S, T) -> Option<S>, s: S, a: seq<T>, b: seq<T>, t: S)
    requires Chain(f, s, a) == Some(t)
    ensures Chain(f, s, a + b) == Chain(f, t, b)
    decreases |a|
  {
    if a == [] {
      assert a + b == b;
    } else {
      assert (a + b)[1..] == a[1..] + b;
      ChainConcat(f, f(s, a[0]).value, a[1..], b, t);
    }
  }

  /** The states on the way. */
  lemma {:induction false} ChainStates<S, T>(f: (S, T) -> Option<S>, s: S, steps: seq<T>, t: S) returns (states: seq<S>)
    requires Chain(f, s, steps) == Some(t)
    ensures |states| == |steps| + 1 && states[0] == s && states[|steps|] == t
    ensures forall i :: 0 <= i < |steps| ==> f(states[i], steps[i]) == Some(states[i + 1])
    decreases |steps|
  {
    if steps == [] {
      states := [s];
    } else {
      var u := f(s, steps[0]).value;
      var rest := ChainStates(f, u, steps[1..], t);
      states := [s] + rest;
      forall i | 0 <= i < |steps| ensures f(states[i], steps[i]) == Some(states[i + 1]) {
        if i > 0 {
          assert steps[1..][i - 1] == steps[i];
        }
      }
    }
  }
}
