/** Repeated application of a state transformer, and the trace of outputs
    read off the successive states. The scanner's token stream is an
    instance: the state is the scan position, the output is the next token. */
module Iteration {

  /** The state after k steps. */
  function Iterate<S>(f: S -> S, s: S, k: nat): S
  {
    if k == 0 then s else f(Iterate(f, s, k - 1))
  }

  /** The outputs of the first n states: out(s), out(f(s)), ... */
  function Trace<S, T>(f: S -> S, out: S -> T, s: S, n: nat): (r: seq<T>)
    ensures |r| == n
  {
    if n == 0 then [] else Trace(f, out, s, n - 1) + [out(Iterate(f, s, n - 1))]
  }

  /** Taking one step first and then k steps is taking k + 1 steps. */
  lemma {:induction false} IterateShift<S>(f: S -> S, s: S, k: nat)
    ensures Iterate(f, f(s), k) == Iterate(f, s, k + 1)
  {
    if k > 0 {
      IterateShift(f, s, k - 1);
    }
  }

  /** The j-th element of a trace is the output of the state after j steps. */
  lemma {:induction false} TraceIndex<S, T>(f: S -> S, out: S -> T, s: S, n: nat, j: nat)
    requires j < n
    ensures Trace(f, out, s, n)[j] == out(Iterate(f, s, j))
  {
    if j < n - 1 {
      TraceIndex(f, out, s, n - 1, j);
    }
  }

  /** The trace from the second state is the tail of the trace from the first. */
  lemma {:induction false} TraceShift<S, T>(f: S -> S, out: S -> T, s: S, n: nat)
    ensures Trace(f, out, f(s), n) == Trace(f, out, s, n + 1)[1..]
  {
    if n > 0 {
      TraceShift(f, out, s, n - 1);
      IterateShift(f, s, n - 1);
    }
  }
}
