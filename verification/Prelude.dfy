/** Shared plumbing: optional values. */
module Prelude {
  datatype Option<+T> = None | Some(value: T)

  /** Places in a list of length n, from left to right. */
  ghost predicate Places(picks: seq<nat>, n: nat) {
    && (forall i, j | 0 <= i < j < |picks| :: picks[i] < picks[j])
    && forall i | 0 <= i < |picks| :: picks[i] < n
  }

  lemma PlacesNext(picks: seq<nat>, n: nat)
    requires Places(picks, n)
    ensures Places(picks, n + 1) && Places(picks + [n], n + 1)
  {
  }
}
