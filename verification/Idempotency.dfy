// What receivers can rely on when they deduplicate by delivery id: however many passes deliver
// a message at once, the ids they are sent for a pair are few and follow the stored log.

module Idempotency {
  import opened OutboxTypes
  import opened AttemptTable
  import opened Delivery
  import opened Protocol
  import opened Conservation
  import opened AttemptInvariant
  import opened Reachability

  // A POST is only made under the number after a stored row that is not a Success (or under 1),
  // within the subscription's retries. What it followed stays stored until its message goes.
  ghost predicate FollowsLog(c: Config, log: AttemptLog, t: Table, id: DeliveryId) {
    && 1 <= id.number && id.number - 1 <= c.maxRetries(id.subscriptionId)
    && (id.messageId in t && id.number > 1 ==> Before(id) in log && log[Before(id)] != Success)
  }

  ghost predicate PostsFollowLog(c: Config, s: State) {
    forall p :: p in s.past.accepted + s.past.failed ==> FollowsLog(c, s.log, s.table, p.1)
  }

  lemma PostsFrame(c: Config, s: State, step: Step)
    requires Enabled(c, s, step) && !step.Post?
    ensures Apply(c, s, step).past.accepted == s.past.accepted && Apply(c, s, step).past.failed == s.past.failed
  {
    if PassStep(step) {
      PassStepFrame(c, s, step);
    }
  }

  // The log and the table after a step that makes no POST still bear out the ids posted before.
  lemma StillFollows(c: Config, log: AttemptLog, t: Table, log': AttemptLog, t': Table, id: DeliveryId)
    requires FollowsLog(c, log, t, id)
    requires id.messageId in t' ==> id.messageId in t
    requires id.messageId in t' ==> Contains(log', Cascade(log, {id.messageId}))
    ensures FollowsLog(c, log', t', id)
  {
    if id.messageId in t' && id.number > 1 {
      assert Before(id) in Cascade(log, {id.messageId});
    }
  }

  // A row of a message that stays in the table stays as it is.
  lemma RowsStay(c: Config, s: State, step: Step, m: MessageId)
    requires Enabled(c, s, step) && m in Apply(c, s, step).table
    ensures Contains(Apply(c, s, step).log, Cascade(s.log, {m}))
  {
    match step
    case Save(w, outcome) => SaveKeepsRows(s, w, outcome, m);
    case PurgeOld(olderThan) => PurgeKeepsRows(s, olderThan, m);
    case _ => LogFrame(c, s, step);
  }

  lemma PurgeKeepsRows(s: State, olderThan: Instant, m: MessageId)
    requires m in ApplyPurge(s, olderThan).table
    ensures Contains(ApplyPurge(s, olderThan).log, Cascade(s.log, {m}))
  {
  }

  lemma SaveKeepsRows(s: State, w: WorkerId, outcome: SaveResult, m: MessageId)
    requires InDelivery(s, w)
    requires outcome != Refused ==> Insertable(s.log, RowsToSave(s.workers[w]), s.table.Keys)
    ensures Contains(ApplySave(s, w, outcome).log, Cascade(s.log, {m}))
  {
  }

  // A committed message that is in the table after a step was there before it.
  lemma CommittedStays(c: Config, s: State, step: Step, m: MessageId)
    requires TxInv(s) && Enabled(c, s, step)
    requires m in s.past.committed && m in Apply(c, s, step).table
    ensures m in s.table
  {
    if !step.Commit? && !step.PurgeOld? {
      KeysFrame(c, s, step);
    }
  }

  lemma PostFollows(c: Config, s: State, w: WorkerId, sub: SubscriptionId)
    requires LogInv(c, s) && InDelivery(s, w) && NeedsPost(c, s.workers[w].phase.states, sub)
    ensures FollowsLog(c, s.log, s.table, NextId(s.workers[w].messageId, s.workers[w].phase.states, sub))
  {
    var k := s.workers[w];
    var id := NextId(k.messageId, k.phase.states, sub);
    if k.messageId in s.table && id.number > 1 {
      assert PassView(c, s.log, k);
      assert Before(id) == DeliveryId(k.messageId, sub, k.phase.states[sub].attemptCount);
    }
  }

  lemma PostStep(c: Config, s: State, w: WorkerId, sub: SubscriptionId, acceptedByReceiver: bool, result: AttemptStatus)
    requires LogInv(c, s) && PostsFollowLog(c, s) && Enabled(c, s, Post(w, sub, acceptedByReceiver, result))
    ensures PostsFollowLog(c, Apply(c, s, Post(w, sub, acceptedByReceiver, result)))
  {
    PostFollows(c, s, w, sub);
  }

  lemma PostsFollowStep(c: Config, s: State, step: Step)
    requires TxInv(s) && LogInv(c, s) && PostsFollowLog(c, s) && Enabled(c, s, step)
    ensures PostsFollowLog(c, Apply(c, s, step))
  {
    if step.Post? {
      PostStep(c, s, step.w, step.subscription, step.acceptedByReceiver, step.result);
    } else {
      var s' := Apply(c, s, step);
      PostsFrame(c, s, step);
      forall id | FollowsLog(c, s.log, s.table, id) && id.messageId in s.past.committed
        ensures FollowsLog(c, s'.log, s'.table, id)
      {
        if id.messageId in s'.table {
          RowsStay(c, s, step, id.messageId);
          CommittedStays(c, s, step, id.messageId);
        }
        StillFollows(c, s.log, s.table, s'.log, s'.table, id);
      }
    }
  }

  lemma {:induction false} PostsFollowRun(c: Config, s: State, steps: seq<Step>)
    requires Inv(c, s) && PostsFollowLog(c, s) && IsRun(c, s, steps)
    ensures Inv(c, End(c, s, steps)) && PostsFollowLog(c, End(c, s, steps))
    decreases |steps|
  {
    if steps != [] {
      InvStep(c, s, steps[0]);
      PostsFollowStep(c, s, steps[0]);
      PostsFollowRun(c, Apply(c, s, steps[0]), steps[1..]);
    }
  }

  // ---- Every run --------------------------------------------------------------------------

  // The ids under which a pair was ever posted, whatever became of the POST.
  function PostedIds(s: State, m: MessageId, sub: SubscriptionId): set<DeliveryId> {
    set p | p in s.past.accepted + s.past.failed && p.1.messageId == m && p.1.subscriptionId == sub :: p.1
  }

  // On every run, with any number of stale passes: a pair is posted under at most
  // MaxRetries + 1 ids; while its message is in the table, under no id beyond the next free
  // number; and once a Success is stored, under no id beyond that Success.
  lemma IdempotencyTheorem(c: Config, steps: seq<Step>, m: MessageId, sub: SubscriptionId)
    requires IsRun(c, INIT, steps)
    ensures var s := End(c, INIT, steps);
            && |PostedIds(s, m, sub)| <= (if c.maxRetries(sub) < 0 then 0 else c.maxRetries(sub) + 1)
            && (m in s.table ==>
                  forall id :: id in PostedIds(s, m, sub) ==>
                    1 <= id.number <= Count(s.log, m, sub) + (if HasSuccess(s.log, m, sub) then 0 else 1))
  {
    PostsFollowRun(c, INIT, steps);
    var s := End(c, INIT, steps);
    FewIds(c, s, m, sub);
    if m in s.table {
      IdsWithinLog(c, s, m, sub);
    }
  }

  lemma FewIds(c: Config, s: State, m: MessageId, sub: SubscriptionId)
    requires PostsFollowLog(c, s)
    ensures |PostedIds(s, m, sub)| <= (if c.maxRetries(sub) < 0 then 0 else c.maxRetries(sub) + 1)
  {
    var limit: nat := if c.maxRetries(sub) < 0 then 0 else c.maxRetries(sub) + 1;
    forall id | id in PostedIds(s, m, sub) ensures id in Prefix(m, sub, limit) {
      assert FollowsLog(c, s.log, s.table, id);
      assert id == DeliveryId(m, sub, id.number);
    }
    PrefixSize(m, sub, limit);
    SubsetSize(PostedIds(s, m, sub), Prefix(m, sub, limit));
  }

  lemma IdsWithinLog(c: Config, s: State, m: MessageId, sub: SubscriptionId)
    requires PostsFollowLog(c, s) && LogOk(c, s.log) && m in s.table
    ensures forall id :: id in PostedIds(s, m, sub) ==>
              1 <= id.number <= Count(s.log, m, sub) + (if HasSuccess(s.log, m, sub) then 0 else 1)
  {
    forall id | id in PostedIds(s, m, sub)
      ensures 1 <= id.number <= Count(s.log, m, sub) + (if HasSuccess(s.log, m, sub) then 0 else 1)
    {
      assert FollowsLog(c, s.log, s.table, id);
      PostWithinCount(s.log, m, sub, id);
    }
  }

  lemma PostWithinCount(log: AttemptLog, m: MessageId, sub: SubscriptionId, id: DeliveryId)
    requires Gapless(log) && SuccessIsLast(log)
    requires id.messageId == m && id.subscriptionId == sub && id.number >= 1
    requires id.number > 1 ==> Before(id) in log && log[Before(id)] != Success
    ensures id.number <= Count(log, m, sub) + (if HasSuccess(log, m, sub) then 0 else 1)
  {
    ExactNumbering(log, m, sub);
    HasSuccessIsTopRow(log, m, sub);
    if id.number > 1 {
      assert Before(id) == DeliveryId(m, sub, id.number - 1);
    }
  }
}
