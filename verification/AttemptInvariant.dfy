// The attempt log as optimistic concurrency control: stale, duplicate and crashed passes
// cannot break its numbering, because a pass may only insert the number after the one it read.

module AttemptInvariant {
  import opened OutboxTypes
  import opened MessageTable
  import opened AttemptTable
  import opened Delivery
  import opened Protocol
  import opened Conservation

  // What a pass read is still the case: the row it counted up to exists, and is a Success
  // exactly when the pass saw one.
  ghost predicate Seen(log: AttemptLog, m: MessageId, states: StateMap) {
    forall sub :: sub in states ==>
      && states[sub].attemptCount >= 1
      && DeliveryId(m, sub, states[sub].attemptCount) in log
      && (log[DeliveryId(m, sub, states[sub].attemptCount)] == Success <==> states[sub].hasSuccess)
  }

  ghost predicate OnlyNeeded(c: Config, subs: seq<SubscriptionId>, states: StateMap, results: ResultMap) {
    forall sub :: sub in results ==> sub in subs && NeedsPost(c, states, sub)
  }

  ghost predicate Contains(log: AttemptLog, rows: AttemptLog) {
    forall id :: id in rows ==> id in log && log[id] == rows[id]
  }

  ghost predicate PassView(c: Config, log: AttemptLog, k: Worker) {
    match k.phase
    case Delivering(subs, states, results) =>
      subs != [] && Seen(log, k.messageId, states) && OnlyNeeded(c, subs, states, results)
    case Deciding(subs, states, results, saved) =>
      && subs != []
      && Seen(log, k.messageId, states)
      && PassComplete(c, subs, states, results)
      && (saved ==> Contains(log, NewRows(k.messageId, states, results)))
    case _ => true
  }

  ghost predicate Referenced(log: AttemptLog, t: Table) {
    forall id :: id in log ==> id.messageId in t
  }

  ghost predicate LogInv(c: Config, s: State) {
    && LogOk(c, s.log)
    && Referenced(s.log, s.table)
    && forall w :: w in s.workers && s.workers[w].messageId in s.table ==> PassView(c, s.log, s.workers[w])
  }

  lemma LogStep(c: Config, s: State, step: Step)
    requires TxInv(s) && LogInv(c, s) && Enabled(c, s, step)
    ensures LogInv(c, Apply(c, s, step))
  {
    match step
    case ReadStates(w) => LogRead(c, s, w);
    case Post(w, sub, acceptedByReceiver, result) => LogPost(c, s, w, sub, acceptedByReceiver, result);
    case Save(w, outcome) => LogSave(c, s, w, outcome);
    case WriteBack(w, nextRetryAt) => LogWriteBackStep(c, s, w, nextRetryAt);
    case ColdLock(instance, o, skip, passes) => LogColdLockStep(c, s, instance, o, skip, passes);
    case PurgeOld(olderThan) => LogPurge(c, s, olderThan);
    case _ => LogOther(c, s, step);
  }

  lemma LogWriteBackStep(c: Config, s: State, w: WorkerId, nextRetryAt: Instant)
    requires LogInv(c, s) && Enabled(c, s, WriteBack(w, nextRetryAt))
    ensures LogInv(c, Apply(c, s, WriteBack(w, nextRetryAt)))
  {
    LogVerdict(c, s, w, VerdictOf(c, s.workers[w]), CauseOf(c, w, s.workers[w]), nextRetryAt);
  }

  lemma LogColdLockStep(c: Config, s: State, instance: InstanceId, o: LockOptions, skip: set<MessageId>,
                        passes: map<WorkerId, MessageId>)
    requires LogInv(c, s) && Enabled(c, s, ColdLock(instance, o, skip, passes))
    ensures LogInv(c, Apply(c, s, ColdLock(instance, o, skip, passes)))
  {
    ColdLockTakes(c, s, instance, o, skip, passes);
    LogColdLock(c, s, instance, o.visibility, passes);
  }

  lemma LogOther(c: Config, s: State, step: Step)
    requires TxInv(s) && LogInv(c, s) && Enabled(c, s, step)
    requires !step.ReadStates? && !step.Post? && !step.Save? && !step.WriteBack? && !step.ColdLock? && !step.PurgeOld?
    ensures LogInv(c, Apply(c, s, step))
  {
  }

  lemma LogColdLock(c: Config, s: State, instance: InstanceId, visibility: int, passes: map<WorkerId, MessageId>)
    requires LogInv(c, s)
    requires forall w :: w in passes ==> passes[w] in s.table
    ensures LogInv(c, ApplyColdLock(s, instance, visibility, passes))
  {
  }

  lemma LogVerdict(c: Config, s: State, w: WorkerId, verdict: Verdict, cause: DeadCause, nextRetryAt: Instant)
    requires LogInv(c, s) && ReadyToWriteBack(s, w)
    ensures LogInv(c, ApplyVerdict(s, w, verdict, cause, nextRetryAt))
  {
  }

  lemma LogRead(c: Config, s: State, w: WorkerId)
    requires LogInv(c, s) && Enabled(c, s, ReadStates(w))
    ensures LogInv(c, Apply(c, s, ReadStates(w)))
  {
    var k := s.workers[w];
    StatesAreSeen(s.log, k.messageId, k.phase.subs);
  }

  lemma StatesAreSeen(log: AttemptLog, m: MessageId, subs: seq<SubscriptionId>)
    requires Gapless(log) && SuccessIsLast(log)
    ensures Seen(log, m, States(log, m, subs))
  {
    forall sub | sub in States(log, m, subs)
      ensures Count(log, m, sub) >= 1 && DeliveryId(m, sub, Count(log, m, sub)) in log
      ensures HasSuccess(log, m, sub) <==> log[DeliveryId(m, sub, Count(log, m, sub))] == Success
    {
      HasSuccessIsTopRow(log, m, sub);
    }
  }

  // What the states say of a listed subscription is what the log says.
  lemma StateFacts(log: AttemptLog, m: MessageId, subs: seq<SubscriptionId>, sub: SubscriptionId)
    requires sub in subs
    ensures AttemptCount(States(log, m, subs), sub) == Count(log, m, sub)
    ensures AlreadyDelivered(States(log, m, subs), sub) <==> HasSuccess(log, m, sub)
  {
    assert HasSuccess(log, m, sub) ==> exists id :: id in RowsOf(log, m, sub) && log[id] == Success;
  }

  lemma LogPost(c: Config, s: State, w: WorkerId, sub: SubscriptionId, acceptedByReceiver: bool, result: AttemptStatus)
    requires LogInv(c, s) && Enabled(c, s, Post(w, sub, acceptedByReceiver, result))
    ensures LogInv(c, Apply(c, s, Post(w, sub, acceptedByReceiver, result)))
  {
  }

  lemma LogPurge(c: Config, s: State, olderThan: Instant)
    requires LogInv(c, s)
    ensures LogInv(c, Apply(c, s, PurgeOld(olderThan)))
  {
    var kept := Purge(s.table, olderThan);
    CascadeKeepsLogOk(c, s.log, kept.Keys);
    forall w | w in s.workers && s.workers[w].messageId in kept
      ensures PassView(c, Cascade(s.log, kept.Keys), s.workers[w])
    {
      CascadeKeepsView(c, s.log, kept.Keys, s.workers[w]);
    }
  }

  lemma CascadeKeepsLogOk(c: Config, log: AttemptLog, messages: set<MessageId>)
    requires LogOk(c, log)
    ensures LogOk(c, Cascade(log, messages))
  {
  }

  lemma CascadeKeepsView(c: Config, log: AttemptLog, messages: set<MessageId>, k: Worker)
    requires PassView(c, log, k) && k.messageId in messages
    ensures PassView(c, Cascade(log, messages), k)
  {
  }

  // Rows that continue the log: each is new, follows a stored row that is not a Success (or
  // starts its pair), respects the retry limit, and is the only one of its pair.
  ghost predicate Continues(c: Config, log: AttemptLog, rows: AttemptLog) {
    && (forall id :: id in rows ==> id !in log && id.number >= 1 && id.number - 1 <= c.maxRetries(id.subscriptionId))
    && (forall id {:trigger Before(id)} :: id in rows && id.number > 1 ==>
          Before(id) in log && log[Before(id)] != Success)
    && (forall id {:trigger After(id)} :: id in rows ==> After(id) !in rows)
  }

  lemma ContinuationKeepsLogOk(c: Config, log: AttemptLog, rows: AttemptLog)
    requires LogOk(c, log) && Continues(c, log, rows)
    ensures LogOk(c, log + rows)
  {
    var log' := log + rows;
    forall id | id in log' && log'[id] == Success ensures After(id) !in log' {
      assert Before(After(id)) == id;
    }
  }

  lemma PassContinues(c: Config, log: AttemptLog, m: MessageId, subs: seq<SubscriptionId>, states: StateMap,
                      results: ResultMap, messages: set<MessageId>)
    requires LogOk(c, log)
    requires Seen(log, m, states) && OnlyNeeded(c, subs, states, results)
    requires Insertable(log, NewRows(m, states, results), messages)
    ensures Continues(c, log, NewRows(m, states, results))
  {
    var rows := NewRows(m, states, results);
    forall id | id in rows
      ensures id.number - 1 <= c.maxRetries(id.subscriptionId)
      ensures id.number > 1 ==> Before(id) in log && log[Before(id)] != Success
    {
      assert NeedsPost(c, states, id.subscriptionId);
      assert id.number > 1 ==> Before(id) == DeliveryId(m, id.subscriptionId, states[id.subscriptionId].attemptCount);
    }
  }

  // Rows only ever added do not make a pass's view stale.
  lemma ViewSurvives(c: Config, log: AttemptLog, log': AttemptLog, k: Worker)
    requires PassView(c, log, k) && Contains(log', log)
    ensures PassView(c, log', k)
  {
  }

  lemma SavedLog(c: Config, log: AttemptLog, t: Table, k: Worker)
    requires LogOk(c, log) && Referenced(log, t)
    requires k.phase.Delivering? && (k.messageId in t ==> PassView(c, log, k))
    requires Insertable(log, RowsToSave(k), t.Keys)
    ensures LogOk(c, log + RowsToSave(k)) && Referenced(log + RowsToSave(k), t)
    ensures Contains(log + RowsToSave(k), log) && Contains(log + RowsToSave(k), RowsToSave(k))
  {
    if k.messageId in t {
      PassContinues(c, log, k.messageId, k.phase.subs, k.phase.states, k.phase.results, t.Keys);
      ContinuationKeepsLogOk(c, log, RowsToSave(k));
    } else {
      assert RowsToSave(k) == map[];
      assert log + RowsToSave(k) == log;
    }
  }

  lemma ViewsSurvive(c: Config, log: AttemptLog, log': AttemptLog, t: Table, workers: map<WorkerId, Worker>)
    requires forall v :: v in workers && workers[v].messageId in t ==> PassView(c, log, workers[v])
    requires Contains(log', log)
    ensures forall v :: v in workers && workers[v].messageId in t ==> PassView(c, log', workers[v])
  {
    forall v | v in workers && workers[v].messageId in t ensures PassView(c, log', workers[v]) {
      ViewSurvives(c, log, log', workers[v]);
    }
  }

  lemma LogSave(c: Config, s: State, w: WorkerId, outcome: SaveResult)
    requires LogInv(c, s) && Enabled(c, s, Save(w, outcome))
    ensures LogInv(c, Apply(c, s, Save(w, outcome)))
  {
    var k, s' := s.workers[w], ApplySave(s, w, outcome);
    if outcome == Refused {
      assert s'.log == s.log;
    } else {
      SavedLog(c, s.log, s.table, k);
      ViewsSurvive(c, s.log, s'.log, s.table, s.workers);
    }
    if k.messageId in s.table {
      SavedView(c, s.log, k, outcome);
    }
  }

  lemma SavedView(c: Config, log: AttemptLog, k: Worker, outcome: SaveResult)
    requires k.phase.Delivering? && PassView(c, log, k)
    requires PassComplete(c, k.phase.subs, k.phase.states, k.phase.results)
    requires outcome != Refused ==> Insertable(log, RowsToSave(k), {k.messageId})
    ensures var log' := if outcome == Refused then log else log + RowsToSave(k);
            PassView(c, log', k.(phase := Deciding(k.phase.subs, k.phase.states, k.phase.results, outcome == Stored)))
  {
  }

  // ---- How the log of one (message, subscription) pair evolves ----------------------------

  ghost predicate SamePair(log: AttemptLog, log': AttemptLog, m: MessageId, sub: SubscriptionId) {
    forall id: DeliveryId :: id.messageId == m && id.subscriptionId == sub ==>
      (id in log <==> id in log') && (id in log ==> log'[id] == log[id])
  }

  // No further row may be written: delivered, or out of retries.
  ghost predicate Closed(c: Config, log: AttemptLog, m: MessageId, sub: SubscriptionId) {
    HasSuccess(log, m, sub) || Count(log, m, sub) > c.maxRetries(sub)
  }

  // The log of a pair grows by one row at a time, numbered COUNT(*) + 1, and only while the
  // pair is open.
  ghost predicate Appends(c: Config, log: AttemptLog, log': AttemptLog, m: MessageId, sub: SubscriptionId) {
    && !Closed(c, log, m, sub)
    && DeliveryId(m, sub, Count(log, m, sub) + 1) !in log
    && DeliveryId(m, sub, Count(log, m, sub) + 1) in log'
    && forall id: DeliveryId :: id.messageId == m && id.subscriptionId == sub && id.number != Count(log, m, sub) + 1 ==>
         (id in log <==> id in log') && (id in log ==> log'[id] == log[id])
  }

  lemma PairStep(c: Config, s: State, step: Step, m: MessageId, sub: SubscriptionId)
    requires TxInv(s) && LogInv(c, s) && Enabled(c, s, step)
    ensures m in Apply(c, s, step).table ==>
              SamePair(s.log, Apply(c, s, step).log, m, sub) || Appends(c, s.log, Apply(c, s, step).log, m, sub)
  {
    match step
    case Save(w, outcome) => if m in s.table { PairSaveStep(c, s, w, outcome, m, sub); }
    case PurgeOld(olderThan) => PairPurge(c, s, olderThan, m, sub);
    case _ => LogFrame(c, s, step);
  }

  lemma PairPurge(c: Config, s: State, olderThan: Instant, m: MessageId, sub: SubscriptionId)
    ensures m in Apply(c, s, PurgeOld(olderThan)).table ==>
              SamePair(s.log, Apply(c, s, PurgeOld(olderThan)).log, m, sub)
  {
  }

  lemma PairSaveStep(c: Config, s: State, w: WorkerId, outcome: SaveResult, m: MessageId, sub: SubscriptionId)
    requires LogInv(c, s) && Enabled(c, s, Save(w, outcome)) && m in s.table
    ensures SamePair(s.log, Apply(c, s, Save(w, outcome)).log, m, sub)
            || Appends(c, s.log, Apply(c, s, Save(w, outcome)).log, m, sub)
  {
    var k := s.workers[w];
    if outcome != Refused && k.messageId == m && sub in k.phase.results {
      PairSave(c, s.log, s.table, k, sub);
    } else {
      assert SamePair(s.log, ApplySave(s, w, outcome).log, m, sub);
    }
  }

  lemma PairSave(c: Config, log: AttemptLog, t: Table, k: Worker, sub: SubscriptionId)
    requires LogOk(c, log)
    requires k.phase.Delivering? && PassView(c, log, k) && sub in k.phase.results
    requires Insertable(log, RowsToSave(k), t.Keys)
    ensures Appends(c, log, log + RowsToSave(k), k.messageId, sub)
  {
    var m, states := k.messageId, k.phase.states;
    var id := NextId(m, states, sub);
    assert id in RowsToSave(k);
    assert NeedsPost(c, states, sub);
    ExactNumbering(log, m, sub);
    HasSuccessIsTopRow(log, m, sub);
    assert id == DeliveryId(m, sub, AttemptCount(states, sub) + 1);
    assert sub in states ==> DeliveryId(m, sub, states[sub].attemptCount) in log;
    assert Count(log, m, sub) == AttemptCount(states, sub);
  }

  lemma SamePairSameGroup(c: Config, log: AttemptLog, log': AttemptLog, m: MessageId, sub: SubscriptionId)
    requires SamePair(log, log', m, sub)
    ensures Count(log', m, sub) == Count(log, m, sub)
    ensures HasSuccess(log', m, sub) <==> HasSuccess(log, m, sub)
  {
    assert RowsOf(log, m, sub) == RowsOf(log', m, sub);
    assert HasSuccess(log, m, sub) ==> exists id :: id in RowsOf(log', m, sub) && log'[id] == Success;
    assert HasSuccess(log', m, sub) ==> exists id :: id in RowsOf(log, m, sub) && log[id] == Success;
  }

  // Once a pair is closed its log is frozen for good: on every run its rows stay exactly
  // what they were, until the message itself is purged and takes them along.
  lemma {:induction false} ClosedForever(c: Config, s: State, steps: seq<Step>, m: MessageId, sub: SubscriptionId)
    requires TxInv(s) && LogInv(c, s) && IsRun(c, s, steps)
    requires m in s.past.committed && (m in s.table ==> Closed(c, s.log, m, sub))
    ensures var s' := End(c, s, steps);
            if m in s'.table then m in s.table && SamePair(s.log, s'.log, m, sub) else Count(s'.log, m, sub) == 0
    decreases |steps|
  {
    if steps == [] {
      if m !in s.table {
        assert RowsOf(s.log, m, sub) == {};
      }
    } else {
      var s' := Apply(c, s, steps[0]);
      TxStep(c, s, steps[0]);
      LogStep(c, s, steps[0]);
      CommittedGrows(c, s, steps[0]);
      if m in s'.table {
        PairStep(c, s, steps[0], m, sub);
        SamePairSameGroup(c, s.log, s'.log, m, sub);
      }
      ClosedForever(c, s', steps[1..], m, sub);
    }
  }

  lemma CommittedGrows(c: Config, s: State, step: Step)
    requires TxInv(s) && Enabled(c, s, step)
    ensures s.past.committed <= Apply(c, s, step).past.committed
    ensures forall m :: m in s.past.committed && m in Apply(c, s, step).table ==> m in s.table
  {
    match step
    case Commit(_) =>
    case PurgeOld(_) =>
    case _ => KeysFrame(c, s, step);
  }
}
