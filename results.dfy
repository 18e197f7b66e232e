/** Outcomes of the modelled operations: a value, or the reason there is none. */
module Results {

  /** Why a modelled call produces no value. */
  datatype Error =
    | EmptySchedule   // change_R0 reads the first breakpoint of an empty schedule (an IndexError)
    | DrawsExhausted  // the finite stream of random draws ran out while R0 was still at least 1
    | EmptyStepRange  // `random.randint(1, dt)` with dt < 1 has nothing to draw from (a ValueError)
    | ZeroPopulation  // `initial/N` with N = 0 (a ZeroDivisionError)

  datatype Result<T> = Ok(value: T) | Err(error: Error)

  /** Puts `prefix` in front of a successful list; an error passes through unchanged. */
  function Prepend<T>(prefix: seq<T>, r: Result<seq<T>>): (p: Result<seq<T>>)
    ensures p.Ok? <==> r.Ok?
    ensures p.Ok? ==> p.value == prefix + r.value
    ensures p.Err? ==> p == r
  {
    match r
    case Ok(s) => Ok(prefix + s)
    case Err(e) => Err(e)
  }

  lemma PrependNil<T>(r: Result<seq<T>>)
    ensures Prepend([], r) == r
  {
    if r.Ok? {
      assert [] + r.value == r.value;
    }
  }

  lemma PrependTwice<T>(a: seq<T>, b: seq<T>, r: Result<seq<T>>)
    ensures Prepend(a, Prepend(b, r)) == Prepend(a + b, r)
  {
    if r.Ok? {
      assert a + (b + r.value) == (a + b) + r.value;
    }
  }
}
