/** The two-variant sum that carries every fallible step of the parser:
    an ok value or an error, with functional maps and the two combinators
    (subsume/consume) that fold one Result into another. */
module Results {

  datatype Result<T, E> = Ok(value: T) | Err(error: E) {

    predicate IsOk() { Ok? }

    predicate IsErr() { Err? }

    /** Applies `f` to an ok value; an error passes through unchanged. */
    function Map<U>(f: T -> U): (r: Result<U, E>)
      ensures r.Ok? <==> this.Ok?
      ensures this.Ok? ==> r.value == f(this.value)
      ensures this.Err? ==> r.error == this.error
    {
      match this
      case Ok(v) => Ok(f(v))
      case Err(e) => Err(e)
    }

    /** The destructive variant of Map: the same value-level behaviour, since
        moving out of the receiver is not observable on values. */
    function ConsumeMap<U>(f: T -> U): (r: Result<U, E>)
      ensures r.Ok? <==> this.Ok?
      ensures this.Ok? ==> r.value == f(this.value)
      ensures this.Err? ==> r.error == this.error
    {
      Map(f)
    }

    /** Applies `g` to an error; an ok value passes through unchanged. */
    function MapErr<F>(g: E -> F): (r: Result<T, F>)
      ensures r.Ok? <==> this.Ok?
      ensures this.Ok? ==> r.value == this.value
      ensures this.Err? ==> r.error == g(this.error)
    {
      match this
      case Ok(v) => Ok(v)
      case Err(e) => Err(g(e))
    }

    /** Applies `f` or `g` according to the state. */
    function MapFlat<U, F>(f: T -> U, g: E -> F): (r: Result<U, F>)
      ensures r.Ok? <==> this.Ok?
      ensures this.Ok? ==> r.value == f(this.value)
      ensures this.Err? ==> r.error == g(this.error)
    {
      match this
      case Ok(v) => Ok(f(v))
      case Err(e) => Err(g(e))
    }

    /** Folds `other` into this Result: an err receiver is kept, an ok receiver
        takes the other's error, and two oks combine their values with `f`. */
    function Subsume<U>(f: (T, U) -> T, other: Result<U, E>): (r: Result<T, E>)
      ensures this.Err? ==> r == this
      ensures this.Ok? && other.Err? ==> r == Err(other.error)
      ensures this.Ok? && other.Ok? ==> r == Ok(f(this.value, other.value))
    {
      if Err? then this
      else if other.Err? then Err(other.error)
      else Ok(f(value, other.value))
    }

    /** The destructive variant of Subsume; on values it behaves the same. */
    function Consume<U>(f: (T, U) -> T, other: Result<U, E>): (r: Result<T, E>)
      ensures this.Err? ==> r == this
      ensures this.Ok? && other.Err? ==> r == Err(other.error)
      ensures this.Ok? && other.Ok? ==> r == Ok(f(this.value, other.value))
    {
      Subsume(f, other)
    }

    /** `operator>>`: runs the callback only when ok. The callback's effect is
        modelled as a state transformer. */
    function Then<S>(action: S -> S, state: S): (s: S)
      ensures this.Ok? ==> s == action(state)
      ensures this.Err? ==> s == state
    {
      if Ok? then action(state) else state
    }
  }

  /** `ok_default()`: an ok Result holding the default value of T, which is
      passed in because Dafny has no default constructor for a type parameter. */
  function OkDefault<T, E>(defaultValue: T): (r: Result<T, E>)
    ensures r.Ok? && r.value == defaultValue
  {
    Ok(defaultValue)
  }

  lemma ExactlyOneState<T, E>(r: Result<T, E>)
    ensures r.IsOk() != r.IsErr()
  {
  }

  /** Mapping twice is mapping once with the composition. */
  lemma MapCompose<T, U, V, E>(r: Result<T, E>, f: T -> U, g: U -> V)
    ensures r.Map(f).Map(g) == r.Map(x => g(f(x)))
  {
  }

  /** map_flat agrees with a map followed by a map_err. */
  lemma MapFlatIsMapThenMapErr<T, U, E, F>(r: Result<T, E>, f: T -> U, g: E -> F)
    ensures r.MapFlat(f, g) == r.Map(f).MapErr(g)
  {
  }

  /** Folds a sequence of Results into an accumulator with Consume, in order;
      this is what a loop of `consume` calls computes. */
  function ConsumeAll<T, U, E>(acc: Result<T, E>, f: (T, U) -> T, rs: seq<Result<U, E>>): Result<T, E>
    decreases |rs|
  {
    if rs == [] then acc else ConsumeAll(acc.Consume(f, rs[0]), f, rs[1..])
  }

  predicate AllOk<U, E>(rs: seq<Result<U, E>>)
  {
    forall i :: 0 <= i < |rs| ==> rs[i].Ok?
  }

  /** Index of the first error in `rs`, or |rs| when all are ok. */
  function FirstErr<U, E>(rs: seq<Result<U, E>>): (k: nat)
    ensures k <= |rs|
    ensures forall i :: 0 <= i < k ==> rs[i].Ok?
    ensures k < |rs| ==> rs[k].Err?
  {
    if rs == [] then 0 else if rs[0].Err? then 0 else 1 + FirstErr(rs[1..])
  }

  /** The left fold of the ok values with `f`. */
  function FoldValues<T, U, E>(acc: T, f: (T, U) -> T, rs: seq<Result<U, E>>): T
    requires AllOk(rs)
    decreases |rs|
  {
    if rs == [] then acc else FoldValues(f(acc, rs[0].value), f, rs[1..])
  }

  /** Consuming a run of Results keeps the FIRST error and ignores everything
      after it; when every Result is ok it folds all values in order. */
  lemma {:induction false} ConsumeAllFirstError<T, U, E>(acc: T, f: (T, U) -> T, rs: seq<Result<U, E>>)
    ensures AllOk(rs) ==> ConsumeAll(Ok(acc), f, rs) == Ok(FoldValues(acc, f, rs))
    ensures !AllOk(rs) ==> ConsumeAll(Ok(acc), f, rs) == Err(rs[FirstErr(rs)].error)
  {
    if rs != [] {
      if rs[0].Err? {
        ConsumeAllKeepsErr(rs[0].error, f, rs[1..]);
      } else {
        ConsumeAllFirstError(f(acc, rs[0].value), f, rs[1..]);
        if !AllOk(rs) {
          assert !AllOk(rs[1..]) by {
            var i :| 0 <= i < |rs| && rs[i].Err?;
            assert rs[1..][i - 1].Err?;
          }
        }
      }
    }
  }

  /** Once the accumulator is an error, no later Result changes it. */
  lemma {:induction false} ConsumeAllKeepsErr<T, U, E>(e: E, f: (T, U) -> T, rs: seq<Result<U, E>>)
    ensures ConsumeAll(Err(e), f, rs) == Err(e)
  {
    if rs != [] {
      ConsumeAllKeepsErr(e, f, rs[1..]);
    }
  }

  /** Consuming one more Result after a run is one more Consume step; this is
      how a loop of `consume` calls builds the fold one iteration at a time. */
  lemma {:induction false} ConsumeAllSnoc<T, U, E>(acc: Result<T, E>, f: (T, U) -> T, rs: seq<Result<U, E>>, r: Result<U, E>)
    ensures ConsumeAll(acc, f, rs + [r]) == ConsumeAll(acc, f, rs).Consume(f, r)
    decreases |rs|
  {
    if rs != [] {
      assert (rs + [r])[1..] == rs[1..] + [r];
      ConsumeAllSnoc(acc.Consume(f, rs[0]), f, rs[1..], r);
    }
  }
}
