// One pass over a locked message, run start to finish against the two stores, and its place
// in the protocol.

module Pipeline {
  import opened OutboxTypes
  import opened MessageTable
  import opened AttemptTable
  import opened Delivery
  import opened ParallelDelivery
  import opened MessageStore
  import opened AttemptStore
  import opened Protocol
  import opened Backoff

  // ---- Subscription cache -----------------------------------------------------------------

  type RouteKey = (string, Option<string>)

  function KeyOf(m: Message): RouteKey {
    (m.eventType, m.key.tenant)
  }

  // The list a message is handed: ProcessDirectDeliveryAsync's lookup.
  function ListFor(cache: map<RouteKey, seq<SubscriptionId>>, m: Message): Option<seq<SubscriptionId>> {
    if KeyOf(m) in cache then Some(cache[KeyOf(m)]) else None
  }

  predicate SameRoute(a: Message, b: Message) {
    a.eventType == b.eventType && a.key.tenant == b.key.tenant
  }

  // The first message of the batch with the event type and tenant of message i.
  function FirstLike(messages: seq<Message>, i: nat): (first: nat)
    requires i < |messages|
    ensures first <= i && SameRoute(messages[first], messages[i])
    ensures forall j :: 0 <= j < first ==> !SameRoute(messages[j], messages[i])
  {
    FirstFrom(messages, i, 0)
  }

  function FirstFrom(messages: seq<Message>, i: nat, from: nat): (first: nat)
    requires from <= i < |messages|
    ensures from <= first <= i && SameRoute(messages[first], messages[i])
    ensures forall j :: from <= j < first ==> !SameRoute(messages[j], messages[i])
    decreases i - from
  {
    if SameRoute(messages[from], messages[i]) then from else FirstFrom(messages, i, from + 1)
  }

  // One lookup per distinct (EventType, TenantId) and no other entry; a message is handed the list
  // looked up for the first message of the batch that agrees with it in both columns. That is its
  // own list when the reader goes by those columns alone.
  method BuildSubscriptionCache(messages: seq<Message>, reader: Message -> seq<SubscriptionId>)
    returns (cache: map<RouteKey, seq<SubscriptionId>>, lookups: nat)
    ensures forall i :: 0 <= i < |messages| ==>
              ListFor(cache, messages[i]) == Some(reader(messages[FirstLike(messages, i)]))
    ensures cache.Keys == set i | 0 <= i < |messages| :: (messages[i].eventType, messages[i].key.tenant)
    ensures (forall a, b :: a in messages && b in messages && a.eventType == b.eventType && a.key.tenant == b.key.tenant
               ==> reader(a) == reader(b))
            ==> forall i :: 0 <= i < |messages| ==> ListFor(cache, messages[i]) == Some(reader(messages[i]))
    ensures lookups == |cache|
  {
    cache, lookups := map[], 0;
    for n := 0 to |messages|
      invariant forall i :: 0 <= i < n ==>
                  ListFor(cache, messages[i]) == Some(reader(messages[FirstLike(messages, i)]))
      invariant cache.Keys == set i | 0 <= i < n :: (messages[i].eventType, messages[i].key.tenant)
      invariant lookups == |cache|
    {
      var key := KeyOf(messages[n]);
      if key !in cache {
        assert FirstLike(messages, n) == n;
        cache := cache[key := reader(messages[n])];
        lookups := lookups + 1;
      } else {
        SeenBefore(messages, n, cache);
      }
    }
  }

  lemma SeenBefore(messages: seq<Message>, n: nat, cache: map<RouteKey, seq<SubscriptionId>>)
    requires n < |messages| && KeyOf(messages[n]) in cache
    requires cache.Keys == set i | 0 <= i < n :: (messages[i].eventType, messages[i].key.tenant)
    ensures exists i :: 0 <= i < n && SameRoute(messages[i], messages[n]) && KeyOf(messages[i]) == KeyOf(messages[n])
                        && FirstLike(messages, i) == FirstLike(messages, n)
  {
    var i :| 0 <= i < n && (messages[i].eventType, messages[i].key.tenant) == KeyOf(messages[n]);
    assert SameRoute(messages[i], messages[n]);
  }

  // ---- What a pass meets ------------------------------------------------------------------

  datatype Environment = Environment(
    readFails: bool,
    deliveryThrows: bool,
    post: SubscriptionId -> AttemptStatus,
    save: SaveResult,
    now: Instant,
    backoff: RetryPolicyOptions,
    draw: real)

  datatype Job = Job(id: MessageId, owner: InstanceId, retrySnapshot: nat, subs: seq<SubscriptionId>)

  function PassOf(c: Config, log: AttemptLog, job: Job, env: Environment): Pass {
    Pass(c, job.id, job.subs, States(log, job.id, job.subs), env.post)
  }

  // What becomes of the save: nothing to save is a success, a conflict or a missing message is
  // a refusal, and otherwise the environment decides.
  function SaveOutcome(log: AttemptLog, t: Table, rows: AttemptLog, wanted: SaveResult): SaveResult {
    if rows == map[] then Stored else if Insertable(log, rows, t.Keys) then wanted else Refused
  }

  // The retry policy of the pass: its limit is the one the configuration gives.
  function PolicyOf(c: Config, env: Environment): RetryPolicyOptions {
    env.backoff.(maxRetries := c.retryLimit)
  }

  function RetryDate(c: Config, job: Job, env: Environment): Instant {
    match GetNextDelay(PolicyOf(c, env), job.retrySnapshot, env.draw)
    case Some(delay) => env.now + Ticks(delay)
    case None => env.now
  }

  function WriteVerdict(c: Config, t: Table, job: Job, verdict: Verdict, env: Environment): Table {
    match verdict
    case Deliver => MarkProcessed(t, job.id, job.owner, env.now)
    case Retry => MessageTable.IncrementRetry(t, job.id, job.owner, RetryDate(c, job, env))
    case DeadLetter => MarkDeadLettered(t, job.id, job.owner)
    case Abandon => t
  }

  // The pass's verdict and the log it leaves.
  function PassVerdict(c: Config, t: Table, log: AttemptLog, job: Job, env: Environment): Verdict {
    if job.subs == [] then Deliver
    else if env.readFails || env.deliveryThrows then FailureVerdict(c, job.retrySnapshot)
    else
      var p := PassOf(c, log, job, env);
      var outcome := SaveOutcome(log, t, NewRows(job.id, p.states, p.Results()), env.save);
      Decide(c, job.subs, p.states, p.Results(), outcome == Stored, job.retrySnapshot)
  }

  function PassLog(c: Config, t: Table, log: AttemptLog, job: Job, env: Environment): AttemptLog {
    if job.subs == [] || env.readFails || env.deliveryThrows then log
    else
      var p := PassOf(c, log, job, env);
      var rows := NewRows(job.id, p.states, p.Results());
      if SaveOutcome(log, t, rows, env.save) == Refused then log else log + rows
  }

  // ---- The methods ------------------------------------------------------------------------

  method HandleMessageFailure(c: Config, store: OutboxStore, job: Job, env: Environment)
    modifies store
    ensures store.rows == WriteVerdict(c, old(store.rows), job, FailureVerdict(c, job.retrySnapshot), env)
    ensures var t, delay := old(store.rows), GetNextDelay(PolicyOf(c, env), job.retrySnapshot, env.draw);
            && (delay.Some? <==> job.retrySnapshot < c.retryLimit)
            && store.rows == if job.id !in t || t[job.id].lockedBy != Some(job.owner) then t
                             else if delay.Some?
                             then t[job.id := t[job.id].(status := Pending, retryCount := t[job.id].retryCount + 1,
                                                         nextRetryAt := Some(env.now + Ticks(delay.value)),
                                                         lockedBy := None, lockedUntil := None)]
                             else t[job.id := t[job.id].(status := DeadLettered, lockedBy := None, lockedUntil := None)]
  {
    var nextDelay := GetNextDelay(PolicyOf(c, env), job.retrySnapshot, env.draw);
    if nextDelay.Some? {
      var _ := store.IncrementRetry(job.id, job.owner, env.now + Ticks(nextDelay.value));
    } else {
      var _ := store.MarkAsDeadLettered(job.id, job.owner);
    }
  }

  // The date a retry is given lies a granted delay ahead: the delay without jitter, less or more
  // by the jitter's share.
  lemma RetryDateWithin(c: Config, job: Job, env: Environment)
    requires env.backoff.Sensible() && Drawn(env.draw) && job.retrySnapshot < c.retryLimit
    ensures var steady := GetNextDelay(Steady(PolicyOf(c, env)), job.retrySnapshot, env.draw);
            && steady.Some?
            && var d, j := steady.value, env.backoff.jitterFactor;
               10_000.0 * (d * (1.0 - j)) - 1.0 < (RetryDate(c, job, env) - env.now) as real
               <= 10_000.0 * (d * (1.0 + j))
  {
    DelayWithin(PolicyOf(c, env), job.retrySnapshot, env.draw);
  }

  method TrySaveAttempts(attemptStore: DeliveryAttemptStore, attempts: seq<Attempt>, messages: set<MessageId>,
                         wanted: SaveResult)
    returns (saved: bool)
    modifies attemptStore
    ensures var possible := DistinctIds(attempts) && Insertable(old(attemptStore.log), AsRows(attempts), messages);
            && (saved <==> attempts == [] || (possible && wanted == Stored))
            && attemptStore.log == if attempts != [] && possible && wanted != Refused
                                   then old(attemptStore.log) + AsRows(attempts) else old(attemptStore.log)
  {
    if attempts == [] {
      return true;
    }
    saved := false;
    if wanted != Refused {
      var stored := attemptStore.SaveAttempts(attempts, messages);
      saved := stored && wanted == Stored;
    }
  }

  method ProcessSingleMessage(c: Config, store: OutboxStore, attemptStore: DeliveryAttemptStore, job: Job,
                              env: Environment)
    requires Distinct(job.subs)
    modifies store, attemptStore
    ensures attemptStore.log == PassLog(c, old(store.rows), old(attemptStore.log), job, env)
    ensures var verdict := PassVerdict(c, old(store.rows), old(attemptStore.log), job, env);
            store.rows == WriteVerdict(c, old(store.rows), job, verdict, env)
  {
    if |job.subs| == 0 {
      var _ := store.MarkAsProcessed(job.id, job.owner, env.now);
      return;
    }
    if env.readFails {
      HandleMessageFailure(c, store, job, env);
      return;
    }
    var states := attemptStore.GetDeliveryStates(job.id, job.subs);
    if env.deliveryThrows {
      HandleMessageFailure(c, store, job, env);
      return;
    }
    var p := Pass(c, job.id, job.subs, states, env.post);
    var saved, succeeded, failed, exhausted := DeliverAndRecord(attemptStore, p, store.rows, env.save);
    WriteDecision(c, store, job, env, saved, succeeded, failed, exhausted);
  }

  method DeliverAndRecord(attemptStore: DeliveryAttemptStore, p: Pass, messages: Table, wanted: SaveResult)
    returns (saved: bool, succeeded: nat, failed: nat, exhausted: nat)
    requires Distinct(p.subs)
    modifies attemptStore
    ensures var rows := NewRows(p.messageId, p.states, p.Results());
            var outcome := SaveOutcome(old(attemptStore.log), messages, rows, wanted);
            && (saved <==> outcome == Stored)
            && attemptStore.log == if outcome == Refused then old(attemptStore.log) else old(attemptStore.log) + rows
    ensures succeeded == Tally(p.c, p.subs, p.states, p.Results(), Succeeded)
    ensures failed == Tally(p.c, p.subs, p.states, p.Results(), FailedNow)
    ensures exhausted == Tally(p.c, p.subs, p.states, p.Results(), Exhausted)
  {
    var attempts;
    succeeded, failed, exhausted, attempts := DeliverToSubscriptions(p);
    AttemptsAreNewRows(p, attempts);
    EmptyRows(attempts);
    saved := TrySaveAttempts(attemptStore, attempts, messages.Keys, wanted);
  }

  method WriteDecision(c: Config, store: OutboxStore, job: Job, env: Environment,
                       saved: bool, succeeded: nat, failed: nat, exhausted: nat)
    modifies store
    ensures var verdict := DecideOn(c, saved, succeeded, failed, exhausted, job.retrySnapshot);
            store.rows == WriteVerdict(c, old(store.rows), job, verdict, env)
  {
    if !saved && succeeded > 0 {
      return;
    }
    if failed == 0 && exhausted == 0 {
      var _ := store.MarkAsProcessed(job.id, job.owner, env.now);
    } else if failed > 0 {
      HandleMessageFailure(c, store, job, env);
    } else {
      var _ := store.MarkAsDeadLettered(job.id, job.owner);
    }
  }

  lemma EmptyRows(attempts: seq<Attempt>)
    ensures attempts == [] <==> AsRows(attempts) == map[]
  {
    AsRowsMeaning(attempts);
    if attempts != [] {
      assert attempts[0].0 in AsRows(attempts);
    }
  }
}
