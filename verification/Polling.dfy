/** `promisedCondition` (source/main/bcc/utils.js): poll a condition every `retryEvery`
    milliseconds until it holds or until `timeout` milliseconds were spent waiting. */
module Polling {

  /** What one poll of `checkCondition` decides. */
  datatype Verdict = Met | GaveUp | Again(timeWaited: nat)

  const RETRY_EVERY: nat := 1000

  function Judge(result: bool, timeout: nat, retryEvery: nat, timeWaited: nat): Verdict {
    if result then Met
    else if timeWaited >= timeout then GaveUp
    else Again(timeWaited + retryEvery)
  }

  /** How a whole `promisedCondition` ended, and how many polls it took. */
  datatype Ending = Ending(resolved: bool, polls: nat)

  /** `checkCondition` with its self-scheduling unrolled; `condition(k)` is the answer to poll `k`. */
  function CheckCondition(condition: nat -> bool, timeout: nat, retryEvery: nat, timeWaited: nat, poll: nat): Ending
    requires retryEvery > 0
    decreases if timeWaited >= timeout then 0 else timeout - timeWaited
  {
    match Judge(condition(poll), timeout, retryEvery, timeWaited)
    case Met => Ending(true, poll + 1)
    case GaveUp => Ending(false, poll + 1)
    case Again(waited) => CheckCondition(condition, timeout, retryEvery, waited, poll + 1)
  }

  function PromisedCondition(condition: nat -> bool, timeout: nat, retryEvery: nat): Ending
    requires retryEvery > 0
  {
    CheckCondition(condition, timeout, retryEvery, 0, 0)
  }

  /** The largest number of polls: the first one and one more for every started retry period. */
  function MaxPolls(timeout: nat, retryEvery: nat): nat
    requires retryEvery > 0
  {
    (timeout + retryEvery - 1) / retryEvery + 1
  }

  ghost predicate FirstAt(condition: nat -> bool, k: nat) {
    condition(k) && forall i: nat :: i < k ==> !condition(i)
  }

  lemma CeilingSteps(timeout: nat, retryEvery: nat, k: nat)
    requires retryEvery > 0
    ensures k * retryEvery >= timeout <==> k + 1 >= MaxPolls(timeout, retryEvery)
  {
    var q := (timeout + retryEvery - 1) / retryEvery;
    assert q * retryEvery <= timeout + retryEvery - 1 < q * retryEvery + retryEvery;
    if k >= q {
      assert k * retryEvery >= q * retryEvery;
    } else {
      assert k * retryEvery <= (q - 1) * retryEvery;
      assert (q - 1) * retryEvery == q * retryEvery - retryEvery;
    }
  }

  lemma {:induction false} CheckConditionFrom(condition: nat -> bool, timeout: nat, retryEvery: nat,
          timeWaited: nat, poll: nat)
    requires retryEvery > 0
    requires timeWaited == poll * retryEvery
    requires poll < MaxPolls(timeout, retryEvery)
    requires forall i: nat :: i < poll ==> !condition(i)
    ensures var e := CheckCondition(condition, timeout, retryEvery, timeWaited, poll);
            && 0 < e.polls <= MaxPolls(timeout, retryEvery)
            && (e.resolved ==> FirstAt(condition, e.polls - 1))
            && (!e.resolved ==>
                  && e.polls == MaxPolls(timeout, retryEvery)
                  && forall i: nat :: i < e.polls ==> !condition(i))
    decreases if timeWaited >= timeout then 0 else timeout - timeWaited
  {
    CeilingSteps(timeout, retryEvery, poll);
    if !condition(poll) && timeWaited < timeout {
      assert (poll + 1) * retryEvery == timeWaited + retryEvery;
      CheckConditionFrom(condition, timeout, retryEvery, timeWaited + retryEvery, poll + 1);
    }
  }

  /** The promise resolves exactly when some poll within the budget of ceil(timeout/retryEvery) + 1 sees
      the condition hold, at the first such poll, and rejects only after the whole budget came back false. */
  lemma PromisedConditionOutcome(condition: nat -> bool, timeout: nat, retryEvery: nat)
    requires retryEvery > 0
    ensures var e := PromisedCondition(condition, timeout, retryEvery);
            && (e.resolved <==> exists k: nat :: k < MaxPolls(timeout, retryEvery) && condition(k))
            && (e.resolved ==> e.polls > 0 && FirstAt(condition, e.polls - 1))
            && (!e.resolved ==> e.polls == MaxPolls(timeout, retryEvery))
            && e.polls <= MaxPolls(timeout, retryEvery)
  {
    CheckConditionFrom(condition, timeout, retryEvery, 0, 0);
    var e := PromisedCondition(condition, timeout, retryEvery);
    if e.resolved {
      assert condition(e.polls - 1);
    }
  }
}
