// The outbox protocol: any number of instances run passes against the two tables, in
// atomic steps that may interleave in any order and stop at any point.

module Protocol {
  import opened OutboxTypes
  import opened MessageTable
  import opened AttemptTable
  import opened Delivery

  // ---- State ----------------------------------------------------------------------------

  datatype Fault = StatesUnreadable | DeliveryThrew

  // How far a pass over one locked message has come.
  datatype Phase =
    | Locked
    | Routed(subs: seq<SubscriptionId>)
    | Delivering(subs: seq<SubscriptionId>, states: StateMap, results: ResultMap)
    | Deciding(subs: seq<SubscriptionId>, states: StateMap, results: ResultMap, saved: bool)
    | Failing(fault: Fault)

  // One pass. LeaseEnd and RetrySnapshot are read off the row when it is locked.
  datatype Worker = Worker(
    instance: InstanceId,
    messageId: MessageId,
    leaseEnd: Instant,
    retrySnapshot: nat,
    phase: Phase)

  // What happened to one message so far.
  datatype Account = Account(
    acquired: nat,
    writeBacks: nat,
    released: nat,
    takenOver: nat,
    retries: nat)

  // Why a message was dead-lettered.
  datatype DeadCause =
    | SubscriptionExhausted(subscription: SubscriptionId)
    | BudgetSpent(pass: WorkerId, snapshot: nat, failure: PassFailure)

  datatype PassFailure = PostFailed(id: DeliveryId) | Threw

  // What a pass read off the row when it locked it.
  datatype LockRecord = LockRecord(messageId: MessageId, snapshot: nat)

  // What has happened so far; no step depends on it but for ids never being used twice.
  datatype History = History(
    lockedAs: map<WorkerId, LockRecord>,             // every pass there ever was
    accepted: set<(WorkerId, DeliveryId)>,           // POSTs a receiver accepted, and from which pass
    failed: set<(WorkerId, DeliveryId)>,             // POSTs reported as failed to a pass
    faults: set<WorkerId>,                           // passes that met a store or delivery error
    accounts: map<MessageId, Account>,
    deliveredBy: map<MessageId, seq<SubscriptionId>>,// the list the delivering pass used
    deadBy: map<MessageId, DeadCause>,
    committed: set<MessageId>,
    rolledBack: set<MessageId>,
    purged: Table)

  datatype State = State(
    now: Instant,
    open: Table,                                     // inserted, transaction still open
    table: Table,                                    // OutboxMessages
    log: AttemptLog,                                 // DeliveryAttempts
    workers: map<WorkerId, Worker>,                  // passes in flight
    past: History)

  const INIT: State :=
    State(0, map[], map[], map[], map[], History(map[], {}, {}, {}, map[], map[], map[], {}, {}, map[]))

  // ---- Steps ----------------------------------------------------------------------------

  // A save is all or nothing; it may be applied and still be reported as failed.
  datatype SaveResult = Stored | Refused | StoredButReportedFailed

  datatype Step =
    | Insert(id: MessageId, eventType: string, key: PartitionKey)
    | Commit(id: MessageId)
    | Rollback(id: MessageId)
    | HotLock(w: WorkerId, instance: InstanceId, id: MessageId, visibility: int)
    | ColdLock(instance: InstanceId, options: LockOptions, skip: set<MessageId>, passes: map<WorkerId, MessageId>)
    | Release
    | Route(w: WorkerId, subs: seq<SubscriptionId>)
    | ReadStates(w: WorkerId)
    | FailReading(w: WorkerId)
    | Post(w: WorkerId, subscription: SubscriptionId, acceptedByReceiver: bool, result: AttemptStatus)
    | ThrowInDelivery(w: WorkerId)
    | Save(w: WorkerId, outcome: SaveResult)
    | WriteBack(w: WorkerId, nextRetryAt: Instant)
    | Crash(w: WorkerId)
    | Tick(now: Instant)
    | PurgeOld(olderThan: Instant)

  predicate Fresh(s: State, id: MessageId) {
    id !in s.open && id !in s.past.committed && id !in s.past.rolledBack
  }

  predicate InPhaseRouted(s: State, w: WorkerId) {
    w in s.workers && s.workers[w].phase.Routed?
  }

  predicate InDelivery(s: State, w: WorkerId) {
    w in s.workers && s.workers[w].phase.Delivering?
  }

  ghost predicate Injective(m: map<WorkerId, MessageId>) {
    forall v, w :: v in m && w in m && m[v] == m[w] ==> v == w
  }

  // The pass has something to write back: its decision, a failure to handle, or an empty
  // subscription list.
  predicate ReadyToWriteBack(s: State, w: WorkerId) {
    && w in s.workers
    && var p := s.workers[w].phase;
       p.Deciding? || p.Failing? || (p.Routed? && p.subs == [])
  }

  function RowsToSave(k: Worker): AttemptLog
    requires k.phase.Delivering?
  {
    NewRows(k.messageId, k.phase.states, k.phase.results)
  }

  ghost predicate Enabled(c: Config, s: State, step: Step) {
    match step
    case Insert(id, _, _) => Fresh(s, id)
    case Commit(id) => id in s.open
    case Rollback(id) => id in s.open
    case HotLock(w, _, id, _) => w !in s.past.lockedAs && id in s.table && HotEligible(s.table[id], s.now)
    case ColdLock(_, o, skip, passes) =>
      && passes.Keys !! s.past.lockedAs.Keys
      && Injective(passes)
      && IsBatch(s.table, o, skip, s.now, passes.Values)
    case Release => true
    case Route(w, subs) => w in s.workers && s.workers[w].phase.Locked? && Distinct(subs)
    case ReadStates(w) => InPhaseRouted(s, w) && s.workers[w].phase.subs != []
    case FailReading(w) => InPhaseRouted(s, w) && s.workers[w].phase.subs != []
    case Post(w, sub, acceptedByReceiver, result) =>
      && InDelivery(s, w)
      && sub in s.workers[w].phase.subs
      && NeedsPost(c, s.workers[w].phase.states, sub)
      && sub !in s.workers[w].phase.results
      && (result == Success ==> acceptedByReceiver)
    case ThrowInDelivery(w) => InDelivery(s, w)
    case Save(w, outcome) =>
      && InDelivery(s, w)
      && PassComplete(c, s.workers[w].phase.subs, s.workers[w].phase.states, s.workers[w].phase.results)
      && (outcome != Refused ==> Insertable(s.log, RowsToSave(s.workers[w]), s.table.Keys))
      && (s.workers[w].phase.results == map[] ==> outcome == Stored)
    case WriteBack(w, _) => ReadyToWriteBack(s, w)
    case Crash(w) => w in s.workers
    case Tick(now) => now >= s.now
    case PurgeOld(_) => true
  }

  // ---- Effects --------------------------------------------------------------------------

  function StartWorker(t: Table, id: MessageId, instance: InstanceId, until: Instant): Worker
    requires id in t
  {
    Worker(instance, id, until, t[id].retryCount, Locked)
  }

  function StartAll(t: Table, passes: map<WorkerId, MessageId>, instance: InstanceId, until: Instant)
    : (workers: map<WorkerId, Worker>)
    requires forall w :: w in passes ==> passes[w] in t
    ensures workers.Keys == passes.Keys
  {
    map w | w in passes :: StartWorker(t, passes[w], instance, until)
  }

  function RecordAll(t: Table, passes: map<WorkerId, MessageId>): (records: map<WorkerId, LockRecord>)
    requires forall w :: w in passes ==> passes[w] in t
    ensures records.Keys == passes.Keys
  {
    map w | w in passes :: LockRecord(passes[w], t[passes[w]].retryCount)
  }

  function AccountLock(a: Account, wasProcessing: bool): Account {
    a.(acquired := a.acquired + 1, takenOver := a.takenOver + (if wasProcessing then 1 else 0))
  }

  function AccountLocks(accounts: map<MessageId, Account>, t: Table, ids: set<MessageId>)
    : (accounts': map<MessageId, Account>)
    ensures RetriesKept(accounts, accounts')
  {
    map id | id in accounts ::
      if id in ids && id in t then AccountLock(accounts[id], t[id].status == Processing) else accounts[id]
  }

  // Only a write-back touches the retries spent; a message starts with none.
  ghost predicate RetriesKept(accounts: map<MessageId, Account>, accounts': map<MessageId, Account>) {
    && (forall id :: id in accounts ==> id in accounts' && accounts'[id].retries == accounts[id].retries)
    && (forall id :: id in accounts' && id !in accounts ==> accounts'[id].retries == 0)
  }

  function AccountReleases(accounts: map<MessageId, Account>, t: Table, now: Instant)
    : (accounts': map<MessageId, Account>)
    ensures RetriesKept(accounts, accounts')
  {
    map id | id in accounts ::
      if id in t && Expired(t[id], now) then accounts[id].(released := accounts[id].released + 1) else accounts[id]
  }

  function AccountWriteBack(accounts: map<MessageId, Account>, id: MessageId, retry: bool): map<MessageId, Account> {
    if id !in accounts then accounts
    else
      var a := accounts[id];
      accounts[id := a.(writeBacks := a.writeBacks + 1, retries := a.retries + (if retry then 1 else 0))]
  }

  function InPhase(workers: map<WorkerId, Worker>, w: WorkerId, p: Phase): map<WorkerId, Worker>
    requires w in workers
  {
    workers[w := workers[w].(phase := p)]
  }

  function ApplyFault(s: State, w: WorkerId, fault: Fault): State
    requires w in s.workers
  {
    s.(workers := InPhase(s.workers, w, Failing(fault)), past := s.past.(faults := s.past.faults + {w}))
  }

  function ApplyHotLock(s: State, w: WorkerId, instance: InstanceId, id: MessageId, visibility: int): State
    requires id in s.table
  {
    var until := s.now + visibility;
    s.(table := s.table[id := Lock(s.table[id], instance, until)],
       workers := s.workers[w := StartWorker(s.table, id, instance, until)],
       past := s.past.(accounts := AccountLocks(s.past.accounts, s.table, {id}),
                       lockedAs := s.past.lockedAs[w := LockRecord(id, s.table[id].retryCount)]))
  }

  function ApplyColdLock(s: State, instance: InstanceId, visibility: int, passes: map<WorkerId, MessageId>): State
    requires forall w :: w in passes ==> passes[w] in s.table
  {
    var until := s.now + visibility;
    s.(table := LockAll(s.table, passes.Values, instance, until),
       workers := s.workers + StartAll(s.table, passes, instance, until),
       past := s.past.(accounts := AccountLocks(s.past.accounts, s.table, passes.Values),
                       lockedAs := s.past.lockedAs + RecordAll(s.table, passes)))
  }

  function ApplyPost(s: State, w: WorkerId, sub: SubscriptionId, acceptedByReceiver: bool, result: AttemptStatus): State
    requires InDelivery(s, w)
  {
    var k := s.workers[w];
    var id := NextId(k.messageId, k.phase.states, sub);
    s.(workers := InPhase(s.workers, w, Delivering(k.phase.subs, k.phase.states, k.phase.results[sub := result])),
       past := s.past.(accepted := if acceptedByReceiver then s.past.accepted + {(w, id)} else s.past.accepted,
                       failed := if result == Failure then s.past.failed + {(w, id)} else s.past.failed))
  }

  function ApplySave(s: State, w: WorkerId, outcome: SaveResult): State
    requires InDelivery(s, w)
  {
    var k := s.workers[w];
    s.(workers := InPhase(s.workers, w, Deciding(k.phase.subs, k.phase.states, k.phase.results, outcome == Stored)),
       log := if outcome == Refused then s.log else s.log + RowsToSave(k))
  }

  function VerdictOf(c: Config, k: Worker): Verdict
    requires k.phase.Deciding? || k.phase.Failing? || k.phase.Routed?
  {
    match k.phase
    case Routed(_) => Deliver
    case Deciding(subs, states, results, saved) => Decide(c, subs, states, results, saved, k.retrySnapshot)
    case Failing(_) => FailureVerdict(c, k.retrySnapshot)
  }

  // The evidence a dead-lettering pass leaves behind (an arbitrary value for other passes).
  ghost function CauseOf(c: Config, w: WorkerId, k: Worker): DeadCause
    requires k.phase.Deciding? || k.phase.Failing? || k.phase.Routed?
  {
    match k.phase
    case Routed(_) => SubscriptionExhausted(0)
    case Failing(_) => BudgetSpent(w, k.retrySnapshot, Threw)
    case Deciding(subs, states, results, _) =>
      if AnyIn(c, subs, states, results, FailedNow) then
        var sub :| sub in subs && SlotOf(c, states, results, sub) == FailedNow;
        BudgetSpent(w, k.retrySnapshot, PostFailed(NextId(k.messageId, states, sub)))
      else if AnyIn(c, subs, states, results, Exhausted) then
        var sub :| sub in subs && SlotOf(c, states, results, sub) == Exhausted;
        SubscriptionExhausted(sub)
      else
        SubscriptionExhausted(0)
  }

  // The row a verdict writes: MarkAsProcessed, IncrementRetry or MarkAsDeadLettered.
  function RowAfter(m: Message, verdict: Verdict, now: Instant, nextRetryAt: Instant): Message {
    match verdict
    case Deliver => Finished(m, now)
    case Retry => Rescheduled(m, nextRetryAt)
    case DeadLetter => Unlock(m, DeadLettered)
    case Abandon => m
  }

  function SubsOf(p: Phase): seq<SubscriptionId> {
    if p.Locked? || p.Failing? then [] else p.subs
  }

  function RecordVerdict(past: History, id: MessageId, affected: bool, verdict: Verdict, cause: DeadCause,
                         subs: seq<SubscriptionId>): History
  {
    past.(accounts := if affected then AccountWriteBack(past.accounts, id, verdict == Retry) else past.accounts,
          deliveredBy := if affected && verdict == Deliver then past.deliveredBy[id := subs] else past.deliveredBy,
          deadBy := if affected && verdict == DeadLetter then past.deadBy[id := cause] else past.deadBy)
  }

  // The write-back, guarded by LockedBy alone. `cause` is recorded when it dead-letters.
  function ApplyVerdict(s: State, w: WorkerId, verdict: Verdict, cause: DeadCause, nextRetryAt: Instant): State
    requires ReadyToWriteBack(s, w)
  {
    var k := s.workers[w];
    var id := k.messageId;
    var affected := verdict != Abandon && Owns(s.table, id, k.instance);
    s.(workers := s.workers - {w},
       table := if affected then s.table[id := RowAfter(s.table[id], verdict, s.now, nextRetryAt)] else s.table,
       past := RecordVerdict(s.past, id, affected, verdict, cause, SubsOf(k.phase)))
  }

  ghost function ApplyWriteBack(c: Config, s: State, w: WorkerId, nextRetryAt: Instant): State
    requires ReadyToWriteBack(s, w)
  {
    var k := s.workers[w];
    ApplyVerdict(s, w, VerdictOf(c, k), CauseOf(c, w, k), nextRetryAt)
  }

  function ApplyPurge(s: State, olderThan: Instant): State {
    var kept := Purge(s.table, olderThan);
    s.(table := kept,
       log := Cascade(s.log, kept.Keys),
       past := s.past.(purged := s.past.purged + (s.table - kept.Keys)))
  }

  ghost function Apply(c: Config, s: State, step: Step): State
    requires Enabled(c, s, step)
  {
    match step
    case Insert(id, eventType, key) => s.(open := s.open[id := NewMessage(eventType, key, s.now)])
    case Commit(id) =>
      s.(open := s.open - {id},
         table := s.table[id := s.open[id]],
         past := s.past.(accounts := s.past.accounts[id := Account(0, 0, 0, 0, 0)],
                         committed := s.past.committed + {id}))
    case Rollback(id) => s.(open := s.open - {id}, past := s.past.(rolledBack := s.past.rolledBack + {id}))
    case HotLock(w, instance, id, visibility) => ApplyHotLock(s, w, instance, id, visibility)
    case ColdLock(instance, o, skip, passes) => ApplyColdLock(s, instance, o.visibility, passes)
    case Release =>
      s.(table := ReleaseExpired(s.table, s.now),
         past := s.past.(accounts := AccountReleases(s.past.accounts, s.table, s.now)))
    case Route(w, subs) => s.(workers := InPhase(s.workers, w, Routed(subs)))
    case ReadStates(w) =>
      var k := s.workers[w];
      s.(workers := InPhase(s.workers, w, Delivering(k.phase.subs, States(s.log, k.messageId, k.phase.subs), map[])))
    case FailReading(w) => ApplyFault(s, w, StatesUnreadable)
    case Post(w, sub, acceptedByReceiver, result) => ApplyPost(s, w, sub, acceptedByReceiver, result)
    case ThrowInDelivery(w) => ApplyFault(s, w, DeliveryThrew)
    case Save(w, outcome) => ApplySave(s, w, outcome)
    case WriteBack(w, nextRetryAt) => ApplyWriteBack(c, s, w, nextRetryAt)
    case Crash(w) => s.(workers := s.workers - {w})
    case Tick(now) => s.(now := now)
    case PurgeOld(olderThan) => ApplyPurge(s, olderThan)
  }

  // Steps of a pass, and the clock: they leave the message table alone.
  predicate PassStep(step: Step) {
    step.Route? || step.ReadStates? || step.FailReading? || step.Post? || step.ThrowInDelivery? || step.Save?
    || step.Crash? || step.Tick?
  }

  lemma PassStepFrame(c: Config, s: State, step: Step)
    requires Enabled(c, s, step) && PassStep(step)
    ensures var s' := Apply(c, s, step);
            && s'.open == s.open && s'.table == s.table && (!step.Save? ==> s'.log == s.log)
            && OnlyPosts(s.past, s'.past)
            && (!step.Post? ==> s'.past.accepted == s.past.accepted && s'.past.failed == s.past.failed)
  {
    PassStepPast(c, s, step);
  }

  // Nothing is recorded but POSTs and faults.
  ghost predicate OnlyPosts(past: History, past': History) {
    && past'.lockedAs == past.lockedAs && past'.accounts == past.accounts
    && past'.deliveredBy == past.deliveredBy && past'.deadBy == past.deadBy
    && past'.committed == past.committed && past'.rolledBack == past.rolledBack && past'.purged == past.purged
  }

  lemma PassStepPast(c: Config, s: State, step: Step)
    requires Enabled(c, s, step) && PassStep(step)
    ensures OnlyPosts(s.past, Apply(c, s, step).past)
    ensures !step.Post? ==>
              Apply(c, s, step).past.accepted == s.past.accepted && Apply(c, s, step).past.failed == s.past.failed
  {
  }

  predicate SameLease(j: Worker, k: Worker) {
    j.instance == k.instance && j.messageId == k.messageId && j.leaseEnd == k.leaseEnd
        && j.retrySnapshot == k.retrySnapshot
  }

  // They start no pass and keep what each read off its row; the clock does not run backwards.
  lemma PassStepWorkers(c: Config, s: State, step: Step)
    requires Enabled(c, s, step) && PassStep(step)
    ensures Apply(c, s, step).now >= s.now
    ensures forall w :: w in Apply(c, s, step).workers ==>
              w in s.workers && SameLease(Apply(c, s, step).workers[w], s.workers[w])
  {
  }

  lemma VerdictFrame(s: State, w: WorkerId, verdict: Verdict, cause: DeadCause, nextRetryAt: Instant)
    requires ReadyToWriteBack(s, w)
    ensures var s' := ApplyVerdict(s, w, verdict, cause, nextRetryAt);
            s'.log == s.log && s'.table.Keys == s.table.Keys && s'.past.committed == s.past.committed
  {
  }

  lemma LogFrame(c: Config, s: State, step: Step)
    requires Enabled(c, s, step) && !step.Save? && !step.PurgeOld?
    ensures Apply(c, s, step).log == s.log
  {
    if PassStep(step) {
      PassStepFrame(c, s, step);
    } else {
      match step
      case WriteBack(w, nextRetryAt) =>
        var k := s.workers[w];
        VerdictFrame(s, w, VerdictOf(c, k), CauseOf(c, w, k), nextRetryAt);
      case _ =>
    }
  }

  lemma KeysFrame(c: Config, s: State, step: Step)
    requires Enabled(c, s, step) && !step.Commit? && !step.PurgeOld?
    ensures Apply(c, s, step).table.Keys == s.table.Keys
    ensures Apply(c, s, step).past.committed == s.past.committed
  {
    if PassStep(step) {
      PassStepFrame(c, s, step);
    } else {
      match step
      case WriteBack(w, nextRetryAt) =>
        var k := s.workers[w];
        VerdictFrame(s, w, VerdictOf(c, k), CauseOf(c, w, k), nextRetryAt);
      case _ =>
    }
  }

  // What the cold batch takes: rows of the table that are not terminal and whose lease is free,
  // each by a pass of its own that did not exist before.
  lemma ColdLockTakes(c: Config, s: State, instance: InstanceId, o: LockOptions, skip: set<MessageId>,
                      passes: map<WorkerId, MessageId>)
    requires Enabled(c, s, ColdLock(instance, o, skip, passes))
    ensures passes.Keys !! s.past.lockedAs.Keys && Injective(passes)
    ensures forall w :: w in passes ==>
              && passes[w] in s.table && !s.table[passes[w]].Terminal()
              && LeaseFree(s.table[passes[w]], s.now) && RetryDue(s.table[passes[w]], s.now)
              && passes[w] !in skip && TenantAdmits(o.tenantFilter, s.table[passes[w]])
  {
    forall w | w in passes ensures Candidate(s.table, passes[w], o, skip, s.now) {
      assert passes[w] in passes.Values;
      assert passes[w] in Candidates(s.table, o, skip, s.now);
    }
  }

  // ---- Runs -----------------------------------------------------------------------------

  ghost predicate IsRun(c: Config, s: State, steps: seq<Step>)
    decreases |steps|
  {
    steps == [] || (Enabled(c, s, steps[0]) && IsRun(c, Apply(c, s, steps[0]), steps[1..]))
  }

  ghost function End(c: Config, s: State, steps: seq<Step>): State
    requires IsRun(c, s, steps)
    decreases |steps|
  {
    if steps == [] then s else End(c, Apply(c, s, steps[0]), steps[1..])
  }

  ghost predicate OneStep(c: Config, s: State, step: Step) {
    && Enabled(c, s, step) && IsRun(c, s, [step]) && End(c, s, [step]) == Apply(c, s, step)
  }

  lemma OneStepRuns(c: Config, s: State, step: Step)
    requires Enabled(c, s, step)
    ensures OneStep(c, s, step)
  {
    assert [step][1..] == [];
    assert IsRun(c, Apply(c, s, step), []);
  }

  lemma {:induction false} RunsCompose(c: Config, s: State, a: seq<Step>, b: seq<Step>)
    requires IsRun(c, s, a) && IsRun(c, End(c, s, a), b)
    ensures IsRun(c, s, a + b)
    ensures End(c, s, a + b) == End(c, End(c, s, a), b)
    decreases |a|
  {
    if a == [] {
      assert a + b == b;
    } else {
      RunsCompose(c, Apply(c, s, a[0]), a[1..], b);
      assert (a + b)[0] == a[0] && (a + b)[1..] == a[1..] + b;
    }
  }
}
