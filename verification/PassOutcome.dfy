// What an uninterrupted pass comes to, in terms of the log it found and what its receivers
// answer.

module PassOutcome {
  import opened OutboxTypes
  import opened AttemptTable
  import opened Delivery
  import opened Protocol
  import opened AttemptInvariant
  import opened Pipeline

  // The rows of a pass that runs alone never conflict: its numbers continue the log.
  lemma NoConflict(c: Config, log: AttemptLog, t: Table, job: Job, env: Environment)
    requires LogOk(c, log) && job.id in t
    ensures var p := PassOf(c, log, job, env);
            Insertable(log, NewRows(job.id, p.states, p.Results()), t.Keys)
  {
    var p := PassOf(c, log, job, env);
    forall id | id in NewRows(job.id, p.states, p.Results()) ensures id !in log {
      ExactNumbering(log, job.id, id.subscriptionId);
      assert AttemptCount(p.states, id.subscriptionId) == Count(log, job.id, id.subscriptionId);
      assert id == DeliveryId(job.id, id.subscriptionId, id.number);
    }
  }

  // A subscription that gets a POST in this pass.
  ghost predicate PostedNow(c: Config, log: AttemptLog, m: MessageId, sub: SubscriptionId) {
    !HasSuccess(log, m, sub) && Count(log, m, sub) <= c.maxRetries(sub)
  }

  lemma ResultsExact(c: Config, log: AttemptLog, job: Job, env: Environment, sub: SubscriptionId)
    ensures var results := PassOf(c, log, job, env).Results();
            && (sub in results <==> sub in job.subs && PostedNow(c, log, job.id, sub))
            && (sub in results ==> results[sub] == env.post(sub))
  {
    if sub in job.subs {
      StateFacts(log, job.id, job.subs, sub);
    }
  }

  // One row for each subscription of the list that has no Success and has retries left, numbered
  // after the rows it has and with the answer of its receiver; nothing else changes.
  lemma PassLogExact(c: Config, t: Table, log: AttemptLog, job: Job, env: Environment, id: DeliveryId)
    requires LogOk(c, log) && job.id in t && job.subs != [] && !env.readFails && !env.deliveryThrows
    ensures var log', sub := PassLog(c, t, log, job, env), id.subscriptionId;
            && (id in log' <==>
                id in log
                || (env.save != Refused && id.messageId == job.id && sub in job.subs
                    && PostedNow(c, log, job.id, sub) && id.number == Count(log, job.id, sub) + 1))
            && (id in log ==> log'[id] == log[id])
            && (id in log' && id !in log ==> log'[id] == env.post(sub))
  {
    var p, sub := PassOf(c, log, job, env), id.subscriptionId;
    NoConflict(c, log, t, job, env);
    ResultsExact(c, log, job, env, sub);
    if sub in job.subs {
      StateFacts(log, job.id, job.subs, sub);
    }
    assert id in NewRows(job.id, p.states, p.Results()) ==> id !in log;
  }

  // A stored Success, or one answered now.
  ghost predicate Served(c: Config, log: AttemptLog, job: Job, env: Environment, sub: SubscriptionId) {
    HasSuccess(log, job.id, sub) || (PostedNow(c, log, job.id, sub) && env.post(sub) == Success)
  }

  ghost predicate FailsNow(c: Config, log: AttemptLog, job: Job, env: Environment, sub: SubscriptionId) {
    PostedNow(c, log, job.id, sub) && env.post(sub) == Failure
  }

  ghost predicate Spent(c: Config, log: AttemptLog, job: Job, sub: SubscriptionId) {
    !HasSuccess(log, job.id, sub) && Count(log, job.id, sub) > c.maxRetries(sub)
  }

  lemma SlotExact(c: Config, log: AttemptLog, job: Job, env: Environment, sub: SubscriptionId)
    requires sub in job.subs
    ensures var p := PassOf(c, log, job, env);
            var slot := SlotOf(c, p.states, p.Results(), sub);
            && (slot == Succeeded <==> Served(c, log, job, env, sub))
            && (slot == FailedNow <==> FailsNow(c, log, job, env, sub))
            && (slot == Exhausted <==> Spent(c, log, job, sub))
  {
    StateFacts(log, job.id, job.subs, sub);
    ResultsExact(c, log, job, env, sub);
  }

  // The save is reported as done, or there was nothing to save.
  ghost predicate SaveSucceeds(c: Config, log: AttemptLog, job: Job, env: Environment) {
    env.save == Stored || forall sub :: sub in job.subs ==> !PostedNow(c, log, job.id, sub)
  }

  lemma SaveExact(c: Config, t: Table, log: AttemptLog, job: Job, env: Environment)
    requires LogOk(c, log) && job.id in t
    ensures var p := PassOf(c, log, job, env);
            SaveOutcome(log, t, NewRows(job.id, p.states, p.Results()), env.save) == Stored
            <==> SaveSucceeds(c, log, job, env)
  {
    var p := PassOf(c, log, job, env);
    var rows := NewRows(job.id, p.states, p.Results());
    NoConflict(c, log, t, job, env);
    forall sub ensures sub in p.Results() <==> sub in job.subs && PostedNow(c, log, job.id, sub) {
      ResultsExact(c, log, job, env, sub);
    }
    forall sub | sub in p.Results() ensures rows != map[] {
      assert NextId(job.id, p.states, sub) in rows;
    }
    forall id | id in rows ensures id.subscriptionId in p.Results() {
    }
  }

  // The verdict of a pass, from the log and the answers alone.
  lemma PassVerdictExact(c: Config, t: Table, log: AttemptLog, job: Job, env: Environment)
    requires LogOk(c, log) && job.id in t && job.subs != [] && !env.readFails && !env.deliveryThrows
    ensures var verdict := PassVerdict(c, t, log, job, env);
            var saved := SaveSucceeds(c, log, job, env);
            var served := exists sub :: sub in job.subs && Served(c, log, job, env, sub);
            var fails := exists sub :: sub in job.subs && FailsNow(c, log, job, env, sub);
            && (verdict == Abandon <==> !saved && served)
            && (verdict == Deliver <==> saved && forall sub :: sub in job.subs ==> Served(c, log, job, env, sub))
            && (verdict == Retry <==> (saved || !served) && fails && job.retrySnapshot < c.retryLimit)
            && (verdict == DeadLetter <==>
                && (saved || !served)
                && if fails then job.retrySnapshot >= c.retryLimit
                   else exists sub :: sub in job.subs && Spent(c, log, job, sub))
  {
    var p := PassOf(c, log, job, env);
    SaveExact(c, t, log, job, env);
    DecisionMeaning(c, job.subs, p.states, p.Results(), SaveSucceeds(c, log, job, env), job.retrySnapshot);
    forall sub | sub in job.subs
      ensures var slot := SlotOf(c, p.states, p.Results(), sub);
              && (slot == Succeeded <==> Served(c, log, job, env, sub))
              && (slot == FailedNow <==> FailsNow(c, log, job, env, sub))
              && (slot == Exhausted <==> Spent(c, log, job, sub))
    {
      SlotExact(c, log, job, env, sub);
    }
  }
}
