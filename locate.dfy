/** The fallback chain both scrapers use to find page elements: locator strategies are tried in a
    fixed order, and the first one that finds something wins. As the code has it, each strategy is
    a `find_elements` call inside one `try` block, so a strategy that raises ends the chain with
    that exception, and the later strategies are not tried. */
module Locate {
  import opened Outcomes

  /** A strategy that ran and found no element. */
  predicate Misses<E>(q: Attempt<seq<E>>) {
    q.Done? && |q.value| == 0
  }

  /** Index of the strategy that settles the chain (the first that finds something or raises),
      or `|qs|` when every strategy finds nothing. */
  function Settling<E>(qs: seq<Attempt<seq<E>>>): (k: nat)
    ensures k <= |qs|
    ensures forall j :: 0 <= j < k ==> Misses(qs[j])
    ensures k < |qs| ==> !Misses(qs[k])
  {
    if |qs| == 0 || !Misses(qs[0]) then 0 else 1 + Settling(qs[1..])
  }

  /** The `if not elements: elements = find_elements(...)` cascade over the strategies `qs`. */
  function FirstMatch<E>(qs: seq<Attempt<seq<E>>>): (r: Attempt<seq<E>>)
    ensures Settling(qs) < |qs| ==> r == qs[Settling(qs)]
    ensures Settling(qs) == |qs| ==> r == Done([])
  {
    if |qs| == 0 then Done([])
    else if Misses(qs[0]) then FirstMatch(qs[1..])
    else qs[0]
  }

  /** Appending strategies does not change the index of a chain that has settled already. */
  lemma {:induction false} SettlingAppend<E>(qs: seq<Attempt<seq<E>>>, later: seq<Attempt<seq<E>>>)
    ensures Settling(qs) < |qs| ==> Settling(qs + later) == Settling(qs)
    ensures Settling(qs) == |qs| ==> Settling(qs + later) == |qs| + Settling(later)
  {
    if |qs| > 0 && Misses(qs[0]) {
      assert (qs + later)[1..] == qs[1..] + later;
      SettlingAppend(qs[1..], later);
    } else if |qs| == 0 {
      assert qs + later == later;
    }
  }

  /** Once a strategy finds something or raises, the strategies after it are never consulted:
      the chain's result does not depend on them. */
  lemma LaterStrategiesIgnored<E>(qs: seq<Attempt<seq<E>>>, later: seq<Attempt<seq<E>>>)
    requires Settling(qs) < |qs|
    ensures FirstMatch(qs + later) == FirstMatch(qs)
  {
    SettlingAppend(qs, later);
    assert (qs + later)[Settling(qs)] == qs[Settling(qs)];
  }

  /** Strategies that all find nothing are transparent: the chain continues with the next ones. */
  lemma MissesSkipped<E>(qs: seq<Attempt<seq<E>>>, later: seq<Attempt<seq<E>>>)
    requires forall j :: 0 <= j < |qs| ==> Misses(qs[j])
    ensures FirstMatch(qs + later) == FirstMatch(later)
  {
    assert Settling(qs) == |qs|;
    SettlingAppend(qs, later);
    if Settling(later) < |later| {
      assert (qs + later)[|qs| + Settling(later)] == later[Settling(later)];
    }
  }
}
