/**
 * The retry-until-open loops of the transports and of the SimConnect
 * start-up: the outcome of each attempt is given in advance as a sequence,
 * and a loop that returns at all returns after the first successful one.
 */
module Retry {

  /** Some attempt succeeds: the only runs in which the source's retry loops return. */
  predicate EventuallySucceeds(outcomes: seq<bool>)
  {
    exists i :: 0 <= i < |outcomes| && outcomes[i]
  }

  /** The index of the first successful attempt. */
  function FirstSuccess(outcomes: seq<bool>): (k: nat)
    requires EventuallySucceeds(outcomes)
    ensures k < |outcomes| && outcomes[k]
    ensures forall j :: 0 <= j < k ==> !outcomes[j]
    decreases |outcomes|
  {
    if outcomes[0] then 0
    else
      assert EventuallySucceeds(outcomes[1..]) by {
        var i :| 0 <= i < |outcomes| && outcomes[i];
        assert outcomes[1..][i - 1] == outcomes[i];
      }
      1 + FirstSuccess(outcomes[1..])
  }
}
