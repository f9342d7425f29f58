// What one delivery pass makes of a subscription, and the totals the decision is taken on.

module Delivery {
  import opened OutboxTypes

  type StateMap = map<SubscriptionId, DeliveryState>
  // The result of every POST made in a pass, by subscription.
  type ResultMap = map<SubscriptionId, AttemptStatus>

  // A subscription missing from the query result has no attempts.
  function AttemptCount(states: StateMap, s: SubscriptionId): nat {
    if s in states then states[s].attemptCount else 0
  }

  predicate AlreadyDelivered(states: StateMap, s: SubscriptionId) {
    s in states && states[s].hasSuccess
  }

  predicate OutOfRetries(c: Config, states: StateMap, s: SubscriptionId) {
    !AlreadyDelivered(states, s) && AttemptCount(states, s) > c.maxRetries(s)
  }

  predicate NeedsPost(c: Config, states: StateMap, s: SubscriptionId) {
    !AlreadyDelivered(states, s) && !OutOfRetries(c, states, s)
  }

  function NextId(m: MessageId, states: StateMap, s: SubscriptionId): DeliveryId {
    DeliveryId(m, s, AttemptCount(states, s) + 1)
  }

  // The counter a subscription ends up in.
  datatype Slot = Succeeded | FailedNow | Exhausted

  function SlotOf(c: Config, states: StateMap, results: ResultMap, s: SubscriptionId): Slot {
    if AlreadyDelivered(states, s) then Succeeded
    else if OutOfRetries(c, states, s) then Exhausted
    else if s in results && results[s] == Success then Succeeded
    else FailedNow
  }

  // The sequential fold: how many subscriptions of the list land in a slot.
  function Tally(c: Config, subs: seq<SubscriptionId>, states: StateMap, results: ResultMap, slot: Slot): nat {
    if subs == [] then 0
    else Tally(c, subs[1..], states, results, slot) + (if SlotOf(c, states, results, subs[0]) == slot then 1 else 0)
  }

  lemma {:induction false} TallyZero(c: Config, subs: seq<SubscriptionId>, states: StateMap, results: ResultMap,
                                     slot: Slot)
    ensures Tally(c, subs, states, results, slot) == 0
            <==> forall s :: s in subs ==> SlotOf(c, states, results, s) != slot
  {
    if subs != [] {
      TallyZero(c, subs[1..], states, results, slot);
      assert forall s :: s in subs <==> s == subs[0] || s in subs[1..];
    }
  }

  lemma {:induction false} TalliesCoverAll(c: Config, subs: seq<SubscriptionId>, states: StateMap, results: ResultMap)
    ensures Tally(c, subs, states, results, Succeeded) + Tally(c, subs, states, results, FailedNow)
          + Tally(c, subs, states, results, Exhausted) == |subs|
  {
    if subs != [] {
      TalliesCoverAll(c, subs[1..], states, results);
    }
  }

  // The attempts a pass hands to SaveAttemptsAsync.
  function NewRows(m: MessageId, states: StateMap, results: ResultMap): (rows: AttemptLog)
    ensures forall id :: id in rows <==>
              id.messageId == m && id.subscriptionId in results
                  && id.number == AttemptCount(states, id.subscriptionId) + 1
    ensures forall s :: s in results ==> NextId(m, states, s) in rows && rows[NextId(m, states, s)] == results[s]
    ensures forall id :: id in rows ==> rows[id] == results[id.subscriptionId]
  {
    var ids := set s | s in results :: NextId(m, states, s);
    assert forall s :: s in results ==> NextId(m, states, s) in ids;
    assert forall id :: id in ids ==> id.messageId == m && id.subscriptionId in results;
    assert forall id: DeliveryId | id.messageId == m && id.number == AttemptCount(states, id.subscriptionId) + 1 ::
        id == NextId(m, states, id.subscriptionId);
    map id | id in ids :: results[id.subscriptionId]
  }

  // Every subscription that needs a POST has been posted to, and no other.
  ghost predicate PassComplete(c: Config, subs: seq<SubscriptionId>, states: StateMap, results: ResultMap) {
    forall s :: s in results <==> s in subs && NeedsPost(c, states, s)
  }

  predicate Distinct(subs: seq<SubscriptionId>) {
    forall i, j :: 0 <= i < j < |subs| ==> subs[i] != subs[j]
  }

  // ---- Decision -------------------------------------------------------------------------

  datatype Verdict = Deliver | Retry | DeadLetter | Abandon

  // The retry policy's question; Backoff says what delay a yes is worth.
  predicate ShouldRetry(maxRetries: int, retryCount: nat) {
    retryCount < maxRetries
  }

  // HandleMessageFailureAsync: the policy is asked with the RetryCount read at lock time.
  function FailureVerdict(c: Config, retrySnapshot: nat): Verdict {
    if ShouldRetry(c.retryLimit, retrySnapshot) then Retry else DeadLetter
  }

  // The decision phase, on the counters. `saved` is what TrySaveAttemptsAsync reported, or
  // true when there was nothing to save.
  function DecideOn(c: Config, saved: bool, succeeded: nat, failed: nat, exhausted: nat, retrySnapshot: nat): Verdict {
    if !saved && succeeded > 0 then Abandon
    else if failed == 0 && exhausted == 0 then Deliver
    else if failed > 0 then FailureVerdict(c, retrySnapshot)
    else DeadLetter
  }

  function Decide(c: Config, subs: seq<SubscriptionId>, states: StateMap, results: ResultMap,
                  saved: bool, retrySnapshot: nat): Verdict
  {
    DecideOn(c, saved, Tally(c, subs, states, results, Succeeded), Tally(c, subs, states, results, FailedNow),
             Tally(c, subs, states, results, Exhausted), retrySnapshot)
  }

  ghost predicate AnyIn(c: Config, subs: seq<SubscriptionId>, states: StateMap, results: ResultMap, slot: Slot) {
    exists s :: s in subs && SlotOf(c, states, results, s) == slot
  }

  // What each verdict says about the subscriptions of the list. Dead-lettering asks only for
  // one exhausted subscription and none that failed in this pass.
  lemma DecisionMeaning(c: Config, subs: seq<SubscriptionId>, states: StateMap, results: ResultMap,
                        saved: bool, retrySnapshot: nat)
    requires subs != []
    ensures var verdict := Decide(c, subs, states, results, saved, retrySnapshot);
            var succeeded := AnyIn(c, subs, states, results, Succeeded);
            var failed := AnyIn(c, subs, states, results, FailedNow);
            var exhausted := AnyIn(c, subs, states, results, Exhausted);
            && (verdict == Abandon <==> !saved && succeeded)
            && (verdict == Deliver <==> saved && forall s :: s in subs ==> SlotOf(c, states, results, s) == Succeeded)
            && (verdict == Retry <==> (saved || !succeeded) && failed && retrySnapshot < c.retryLimit)
            && (verdict == DeadLetter <==>
                (saved || !succeeded) && (if failed then retrySnapshot >= c.retryLimit else exhausted))
  {
    TallyZero(c, subs, states, results, Succeeded);
    TallyZero(c, subs, states, results, FailedNow);
    TallyZero(c, subs, states, results, Exhausted);
    assert subs[0] in subs;
  }

  // When exhaustion dead-letters a message, every subscription of the list is exhausted only if
  // none was ever delivered to: not before the pass, and not in it.
  lemma AllExhaustedExactly(c: Config, subs: seq<SubscriptionId>, states: StateMap, results: ResultMap,
                            saved: bool, retrySnapshot: nat)
    requires subs != [] && Decide(c, subs, states, results, saved, retrySnapshot) == DeadLetter
    requires !AnyIn(c, subs, states, results, FailedNow)
    ensures AnyIn(c, subs, states, results, Exhausted)
    ensures (forall s :: s in subs ==> OutOfRetries(c, states, s))
            <==> forall s :: s in subs ==>
                   !AlreadyDelivered(states, s) && !(NeedsPost(c, states, s) && s in results && results[s] == Success)
  {
    DecisionMeaning(c, subs, states, results, saved, retrySnapshot);
    forall s | s in subs
      ensures OutOfRetries(c, states, s) <==>
                !AlreadyDelivered(states, s) && !(NeedsPost(c, states, s) && s in results && results[s] == Success)
    {
      assert SlotOf(c, states, results, s) != FailedNow;
    }
  }
}
