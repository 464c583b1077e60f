/** Values for what a browser query gives back: Python's None, and a call that either returns or raises. */
module Outcomes {

  /** Python's `None` or a value. */
  datatype Option<+T> = None | Some(value: T)

  /** One call into the browser session: it returned `value`, or it raised an exception whose
      `str()` is `message`. The exception's class is not modelled. */
  datatype Attempt<+T> = Done(value: T) | Raised(message: string)

  /** Index of the first call that raised, or `|xs|` when none did. */
  function FirstRaised<T>(xs: seq<Attempt<T>>): (k: nat)
    ensures k <= |xs|
    ensures forall j :: 0 <= j < k ==> xs[j].Done?
    ensures k < |xs| ==> xs[k].Raised?
  {
    if |xs| == 0 || xs[0].Raised? then 0 else 1 + FirstRaised(xs[1..])
  }

  /** The first raise is at `i` when every call before `i` returned and the call at `i`, if any,
      raised. */
  lemma FirstRaisedAt<T>(xs: seq<Attempt<T>>, i: nat)
    requires i <= |xs| && forall t :: 0 <= t < i ==> xs[t].Done?
    requires i == |xs| || xs[i].Raised?
    ensures FirstRaised(xs) == i
  {
  }

  /** The values of calls none of which raised, in order. */
  function Values<T>(xs: seq<Attempt<T>>): (vs: seq<T>)
    requires forall j :: 0 <= j < |xs| ==> xs[j].Done?
    ensures |vs| == |xs|
    ensures forall j :: 0 <= j < |xs| ==> vs[j] == xs[j].value
  {
    if |xs| == 0 then [] else Values(xs[..|xs| - 1]) + [xs[|xs| - 1].value]
  }
}
