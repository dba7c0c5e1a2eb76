/** A way to keep a definition out of a proof until the proof asks for it.

    A fact stated as `forall k: nat {:trigger Asked(k)} :: Asked(k) ==> fact` stays dormant while it is
    passed around; a lemma that asserts `Asked(0)` brings it in. */
module Hiding {
  ghost predicate Asked(k: nat) {
    true
  }
}
