// Leases as locks, under a hypothesis about instances, stated as Exclusive below. It is one of
// the conditions that make up for write-backs testing LockedBy but not LockedUntil; Overruns has
// the exact ones.

module Leases {
  import opened OutboxTypes
  import opened MessageTable
  import opened Delivery
  import opened Protocol
  import opened Conservation
  import opened Soundness

  // ---- The hypothesis -------------------------------------------------------------------

  ghost predicate NoPassOf(s: State, instance: InstanceId, id: MessageId) {
    forall w :: w in s.workers ==> !(s.workers[w].instance == instance && s.workers[w].messageId == id)
  }

  // (H) An instance does not lock a message again while a pass of its own on that message is
  // still active. (Instance ids are distinct by being compared at all.)
  ghost predicate Exclusive(s: State, step: Step) {
    match step
    case HotLock(_, instance, id, _) => NoPassOf(s, instance, id)
    case ColdLock(instance, _, _, passes) => forall w :: w in passes ==> NoPassOf(s, instance, passes[w])
    case _ => true
  }

  ghost predicate ExclusiveRun(c: Config, s: State, steps: seq<Step>)
    requires IsRun(c, s, steps)
    decreases |steps|
  {
    steps == [] || (Exclusive(s, steps[0]) && ExclusiveRun(c, Apply(c, s, steps[0]), steps[1..]))
  }

  lemma {:induction false} OneStepMore(c: Config, s: State, steps: seq<Step>, step: Step)
    requires IsRun(c, s, steps) && Enabled(c, End(c, s, steps), step)
    ensures IsRun(c, s, steps + [step]) && End(c, s, steps + [step]) == Apply(c, End(c, s, steps), step)
    ensures ExclusiveRun(c, s, steps) && Exclusive(End(c, s, steps), step) ==> ExclusiveRun(c, s, steps + [step])
    decreases |steps|
  {
    var longer := steps + [step];
    if steps == [] {
      OneStepRuns(c, s, step);
      assert longer == [step] && longer[1..] == [];
    } else {
      assert longer[0] == steps[0] && longer[1..] == steps[1..] + [step];
      OneStepMore(c, Apply(c, s, steps[0]), steps[1..], step);
    }
  }

  // ---- Lease invariant --------------------------------------------------------------------

  ghost predicate OnePassEach(workers: map<WorkerId, Worker>) {
    forall v, w | v in workers && w in workers ::
      workers[v].instance == workers[w].instance && workers[v].messageId == workers[w].messageId ==> v == w
  }

  // A row locked in the pass's name carries the pass's own lock; and while its lease has not
  // ended, the row is locked in its name.
  predicate HoldsLease(t: Table, now: Instant, k: Worker) {
    && (Owns(t, k.messageId, k.instance) ==>
          t[k.messageId].lockedUntil == Some(k.leaseEnd) && t[k.messageId].retryCount == k.retrySnapshot)
    && (k.leaseEnd >= now ==> Owns(t, k.messageId, k.instance))
  }

  ghost predicate LeaseInv(s: State) {
    && OnePassEach(s.workers)
    && forall w :: w in s.workers ==> HoldsLease(s.table, s.now, s.workers[w])
  }

  lemma LeaseStep(c: Config, s: State, step: Step)
    requires TxInv(s) && RowInv(s) && LeaseInv(s) && Enabled(c, s, step) && Exclusive(s, step)
    ensures LeaseInv(Apply(c, s, step))
  {
    if PassStep(step) {
      LeasePass(c, s, step);
    } else {
      match step
      case WriteBack(w, nextRetryAt) => LeaseWriteBackStep(c, s, w, nextRetryAt);
      case HotLock(w, instance, id, visibility) => LeaseHotLock(c, s, w, instance, id, visibility);
      case ColdLock(instance, o, skip, passes) => LeaseColdLockStep(c, s, instance, o, skip, passes);
      case PurgeOld(olderThan) => LeasePurge(c, s, olderThan);
      case _ => LeaseOther(c, s, step);
    }
  }

  lemma LeaseWriteBackStep(c: Config, s: State, w: WorkerId, nextRetryAt: Instant)
    requires RowInv(s) && LeaseInv(s) && Enabled(c, s, WriteBack(w, nextRetryAt))
    ensures LeaseInv(Apply(c, s, WriteBack(w, nextRetryAt)))
  {
    LeaseVerdict(s, w, VerdictOf(c, s.workers[w]), CauseOf(c, w, s.workers[w]), nextRetryAt);
  }

  lemma LeaseColdLockStep(c: Config, s: State, instance: InstanceId, o: LockOptions, skip: set<MessageId>,
                          passes: map<WorkerId, MessageId>)
    requires TxInv(s) && RowInv(s) && LeaseInv(s)
    requires Enabled(c, s, ColdLock(instance, o, skip, passes))
    requires Exclusive(s, ColdLock(instance, o, skip, passes))
    ensures LeaseInv(Apply(c, s, ColdLock(instance, o, skip, passes)))
  {
    ColdLockTakes(c, s, instance, o, skip, passes);
    LeaseColdLock(s, instance, o.visibility, passes);
  }

  lemma LeaseVerdict(s: State, w: WorkerId, verdict: Verdict, cause: DeadCause, nextRetryAt: Instant)
    requires RowInv(s) && LeaseInv(s) && ReadyToWriteBack(s, w)
    ensures LeaseInv(ApplyVerdict(s, w, verdict, cause, nextRetryAt))
  {
    var s' := ApplyVerdict(s, w, verdict, cause, nextRetryAt);
    forall v | v in s'.workers ensures HoldsLease(s'.table, s'.now, s'.workers[v]) {
      assert HoldsLease(s.table, s.now, s.workers[v]) && v != w;
    }
  }

  lemma LeaseHotLock(c: Config, s: State, w: WorkerId, instance: InstanceId, id: MessageId, visibility: int)
    requires TxInv(s) && RowInv(s) && LeaseInv(s) && NoPassOf(s, instance, id)
    requires Enabled(c, s, HotLock(w, instance, id, visibility))
    ensures LeaseInv(Apply(c, s, HotLock(w, instance, id, visibility)))
  {
    var s' := ApplyHotLock(s, w, instance, id, visibility);
    assert RowOk(s.table[id]) && w !in s.workers;
    forall v | v in s'.workers ensures HoldsLease(s'.table, s'.now, s'.workers[v]) {
      assert v != w ==> HoldsLease(s.table, s.now, s.workers[v]);
    }
  }

  lemma LeaseColdLock(s: State, instance: InstanceId, visibility: int, passes: map<WorkerId, MessageId>)
    requires LeaseInv(s) && passes.Keys !! s.workers.Keys && Injective(passes)
    requires forall w :: w in passes ==> passes[w] in s.table && LeaseFree(s.table[passes[w]], s.now)
    requires forall w :: w in passes ==> NoPassOf(s, instance, passes[w])
    ensures LeaseInv(ApplyColdLock(s, instance, visibility, passes))
  {
    LockedApart(s.workers, ApplyColdLock(s, instance, visibility, passes).workers, instance, passes);
    AllHoldLeases(s, instance, visibility, passes);
  }

  lemma AllHoldLeases(s: State, instance: InstanceId, visibility: int, passes: map<WorkerId, MessageId>)
    requires forall v :: v in s.workers ==> HoldsLease(s.table, s.now, s.workers[v])
    requires forall w :: w in passes ==> passes[w] in s.table && LeaseFree(s.table[passes[w]], s.now)
    requires forall w :: w in passes ==> NoPassOf(s, instance, passes[w])
    ensures var s' := ApplyColdLock(s, instance, visibility, passes);
            forall v :: v in s'.workers ==> HoldsLease(s'.table, s'.now, s'.workers[v])
  {
    var s' := ApplyColdLock(s, instance, visibility, passes);
    forall v | v in s'.workers ensures HoldsLease(s'.table, s'.now, s'.workers[v]) {
      if v in passes {
        NewPassHoldsLease(s.table, passes.Values, passes[v], instance, s.now, s.now + visibility);
      } else {
        OldPassKeepsLease(s.table, passes.Values, instance, s.now, s.now + visibility, s.workers[v]);
      }
    }
  }

  lemma NewPassHoldsLease(t: Table, taken: set<MessageId>, id: MessageId, instance: InstanceId, now: Instant,
                          until: Instant)
    requires id in t && id in taken
    ensures HoldsLease(LockAll(t, taken, instance, until), now, StartWorker(t, id, instance, until))
  {
  }

  lemma OldPassKeepsLease(t: Table, taken: set<MessageId>, instance: InstanceId, now: Instant, until: Instant,
                          k: Worker)
    requires HoldsLease(t, now, k) && (k.messageId in taken ==> k.instance != instance)
    requires forall id :: id in taken ==> id in t && LeaseFree(t[id], now)
    ensures HoldsLease(LockAll(t, taken, instance, until), now, k)
  {
  }

  lemma LockedApart(workers: map<WorkerId, Worker>, workers': map<WorkerId, Worker>, instance: InstanceId,
                    passes: map<WorkerId, MessageId>)
    requires OnePassEach(workers) && passes.Keys !! workers.Keys && Injective(passes)
    requires workers'.Keys == workers.Keys + passes.Keys
    requires forall v :: v in workers ==> workers'[v] == workers[v]
    requires forall v :: v in passes ==> workers'[v].instance == instance && workers'[v].messageId == passes[v]
    requires forall v, w :: v in workers && w in passes ==>
          !(workers[v].instance == instance && workers[v].messageId == passes[w])
    ensures OnePassEach(workers')
  {
  }

  lemma LeasePurge(c: Config, s: State, olderThan: Instant)
    requires RowInv(s) && LeaseInv(s)
    ensures LeaseInv(Apply(c, s, PurgeOld(olderThan)))
  {
    var s' := ApplyPurge(s, olderThan);
    forall v | v in s'.workers ensures HoldsLease(s'.table, s'.now, s'.workers[v]) {
      assert HoldsLease(s.table, s.now, s.workers[v]);
    }
  }

  lemma LeaseRelease(s: State)
    requires LeaseInv(s)
    ensures LeaseInv(s.(table := ReleaseExpired(s.table, s.now)))
  {
    forall v | v in s.workers ensures HoldsLease(ReleaseExpired(s.table, s.now), s.now, s.workers[v]) {
      assert HoldsLease(s.table, s.now, s.workers[v]);
    }
  }

  lemma LeaseOther(c: Config, s: State, step: Step)
    requires TxInv(s) && RowInv(s) && LeaseInv(s) && Enabled(c, s, step)
    requires step.Release? || step.Insert? || step.Commit? || step.Rollback?
    ensures LeaseInv(Apply(c, s, step))
  {
    LeaseRelease(s);
  }

  lemma LeasePass(c: Config, s: State, step: Step)
    requires LeaseInv(s) && Enabled(c, s, step) && PassStep(step)
    ensures LeaseInv(Apply(c, s, step))
  {
    PassStepFrame(c, s, step);
    PassStepWorkers(c, s, step);
    var s' := Apply(c, s, step);
    LeaseFewer(s.table, s.now, s'.now, s.workers, s'.workers);
  }

  lemma LeaseFewer(t: Table, now: Instant, now': Instant, workers: map<WorkerId, Worker>,
                   workers': map<WorkerId, Worker>)
    requires OnePassEach(workers) && now' >= now
    requires forall w :: w in workers ==> HoldsLease(t, now, workers[w])
    requires forall w :: w in workers' ==> w in workers && SameLease(workers'[w], workers[w])
    ensures OnePassEach(workers') && forall w :: w in workers' ==> HoldsLease(t, now', workers'[w])
  {
    forall w | w in workers' ensures HoldsLease(t, now', workers'[w]) {
      assert HoldsLease(t, now, workers[w]);
    }
  }

  // Every pass that a row's LockedBy names reads its own lock off the row.
  ghost predicate ReadOwnLocks(t: Table, now: Instant, workers: map<WorkerId, Worker>) {
    forall w :: w in workers ==> HoldsLease(t, now, workers[w])
  }

  // A second pass of the instance takes the row from the first under the first's own name.
  lemma SharedLockBreaks(t: Table, t': Table, now: Instant, until: Instant, instance: InstanceId, id: MessageId,
                         workers: map<WorkerId, Worker>, workers': map<WorkerId, Worker>, v: WorkerId)
    requires ReadOwnLocks(t, now, workers) && until >= now
    requires v in workers && v in workers' && workers'[v] == workers[v]
    requires workers[v].instance == instance && workers[v].messageId == id
    requires id in t && LeaseFree(t[id], now) && id in t' && t'[id] == Lock(t[id], instance, until)
    ensures !ReadOwnLocks(t', now, workers')
  {
    assert HoldsLease(t, now, workers[v]);
    assert !HoldsLease(t', now, workers'[v]);
  }

  lemma SharedHotLockBreaks(s: State, w: WorkerId, instance: InstanceId, id: MessageId, visibility: int)
    requires LeaseInv(s)
    requires w !in s.workers && id in s.table && LeaseFree(s.table[id], s.now) && !NoPassOf(s, instance, id)
    ensures var s' := ApplyHotLock(s, w, instance, id, visibility);
            !OnePassEach(s'.workers) && (visibility >= 0 ==> !ReadOwnLocks(s'.table, s'.now, s'.workers))
  {
    var v :| v in s.workers && s.workers[v].instance == instance && s.workers[v].messageId == id;
    var s' := ApplyHotLock(s, w, instance, id, visibility);
    assert s'.workers[v] == s.workers[v] && s'.workers[w].messageId == id;
    if visibility >= 0 {
      SharedLockBreaks(s.table, s'.table, s.now, s.now + visibility, instance, id, s.workers, s'.workers, v);
    }
  }

  lemma SharedColdLockBreaks(s: State, instance: InstanceId, visibility: int, passes: map<WorkerId, MessageId>,
                             w: WorkerId)
    requires LeaseInv(s)
    requires passes.Keys !! s.workers.Keys
    requires forall v :: v in passes ==> passes[v] in s.table && LeaseFree(s.table[passes[v]], s.now)
    requires w in passes && !NoPassOf(s, instance, passes[w])
    ensures var s' := ApplyColdLock(s, instance, visibility, passes);
            !OnePassEach(s'.workers) && (visibility >= 0 ==> !ReadOwnLocks(s'.table, s'.now, s'.workers))
  {
    var v :| v in s.workers && s.workers[v].instance == instance && s.workers[v].messageId == passes[w];
    var s' := ApplyColdLock(s, instance, visibility, passes);
    assert s'.workers[v] == s.workers[v] && s'.workers[w].messageId == passes[w];
    if visibility >= 0 {
      assert passes[w] in passes.Values;
      SharedLockBreaks(s.table, s'.table, s.now, s.now + visibility, instance, passes[w], s.workers, s'.workers, v);
    }
  }

  function VisibilityOf(step: Step): int {
    if step.HotLock? then step.visibility else if step.ColdLock? then step.options.visibility else 0
  }

  // From a state where they all do, all passes still read their own lock off their rows after a
  // step exactly when the step does not lock a message for an instance that already has a pass
  // on it: LockedBy alone does not tell an instance's passes apart.
  lemma LeaseStepExact(c: Config, s: State, step: Step)
    requires TxInv(s) && RowInv(s) && LeaseInv(s) && Enabled(c, s, step)
    ensures var s' := Apply(c, s, step);
            VisibilityOf(step) >= 0 ==> (ReadOwnLocks(s'.table, s'.now, s'.workers) <==> Exclusive(s, step))
    ensures LeaseInv(Apply(c, s, step)) <==> Exclusive(s, step)
  {
    if Exclusive(s, step) {
      LeaseStep(c, s, step);
    } else {
      match step
      case HotLock(w, instance, id, visibility) => SharedHotLockBreaks(s, w, instance, id, visibility);
      case ColdLock(instance, o, skip, passes) =>
        ColdLockTakes(c, s, instance, o, skip, passes);
        var w :| w in passes && !NoPassOf(s, instance, passes[w]);
        SharedColdLockBreaks(s, instance, o.visibility, passes, w);
    }
  }

  // Two passes never both hold an unexpired lease on one message.
  lemma MutualExclusion(s: State, v: WorkerId, w: WorkerId)
    requires LeaseInv(s)
    requires v in s.workers && w in s.workers && s.workers[v].messageId == s.workers[w].messageId
    requires s.workers[v].leaseEnd >= s.now && s.workers[w].leaseEnd >= s.now
    ensures v == w
  {
    assert HoldsLease(s.table, s.now, s.workers[v]) && HoldsLease(s.table, s.now, s.workers[w]);
  }

  // ---- Retry budget ---------------------------------------------------------------------

  function Budget(c: Config): nat {
    if c.retryLimit < 0 then 0 else c.retryLimit
  }

  ghost predicate BudgetInv(c: Config, s: State) {
    forall id :: id in s.past.accounts ==> s.past.accounts[id].retries <= Budget(c)
  }

  lemma RetriesFrame(c: Config, s: State, step: Step)
    requires TxInv(s) && AccountInv(s) && Enabled(c, s, step) && !step.WriteBack?
    ensures RetriesKept(s.past.accounts, Apply(c, s, step).past.accounts)
  {
    if PassStep(step) {
      PassStepFrame(c, s, step);
    } else if step.Insert? || step.Commit? || step.Rollback? {
      RetriesTransaction(c, s, step);
    }
  }

  lemma RetriesTransaction(c: Config, s: State, step: Step)
    requires TxInv(s) && AccountInv(s) && Enabled(c, s, step)
    requires step.Insert? || step.Commit? || step.Rollback?
    ensures RetriesKept(s.past.accounts, Apply(c, s, step).past.accounts)
  {
  }

  lemma BudgetStep(c: Config, s: State, step: Step)
    requires TxInv(s) && AccountInv(s) && LeaseInv(s) && BudgetInv(c, s) && Enabled(c, s, step)
    ensures BudgetInv(c, Apply(c, s, step))
  {
    if step.WriteBack? {
      BudgetWriteBackStep(c, s, step.w, step.nextRetryAt);
    } else {
      RetriesFrame(c, s, step);
    }
  }

  lemma BudgetWriteBackStep(c: Config, s: State, w: WorkerId, nextRetryAt: Instant)
    requires AccountInv(s) && LeaseInv(s) && BudgetInv(c, s) && Enabled(c, s, WriteBack(w, nextRetryAt))
    ensures BudgetInv(c, Apply(c, s, WriteBack(w, nextRetryAt)))
  {
    SnapshotWithinBudget(c, s.workers[w]);
    BudgetVerdict(c, s, w, VerdictOf(c, s.workers[w]), CauseOf(c, w, s.workers[w]), nextRetryAt);
  }

  lemma SnapshotWithinBudget(c: Config, k: Worker)
    requires k.phase.Deciding? || k.phase.Failing? || k.phase.Routed?
    ensures VerdictOf(c, k) == Retry ==> k.retrySnapshot < c.retryLimit
  {
  }

  lemma BudgetVerdict(c: Config, s: State, w: WorkerId, verdict: Verdict, cause: DeadCause, nextRetryAt: Instant)
    requires AccountInv(s) && LeaseInv(s) && BudgetInv(c, s) && ReadyToWriteBack(s, w)
    requires verdict == Retry ==> s.workers[w].retrySnapshot < c.retryLimit
    ensures BudgetInv(c, ApplyVerdict(s, w, verdict, cause, nextRetryAt))
  {
    var k := s.workers[w];
    var s' := ApplyVerdict(s, w, verdict, cause, nextRetryAt);
    forall id | id in s'.past.accounts ensures s'.past.accounts[id].retries <= Budget(c) {
      if id == k.messageId && verdict == Retry && Owns(s.table, id, k.instance) {
        assert HoldsLease(s.table, s.now, k) && Balanced(s.past.accounts[id], s.table, id);
      } else {
        assert s'.past.accounts[id].retries == s.past.accounts[id].retries;
      }
    }
  }

  // A message is written back at most Budget + 1 times, and the last of them is final.
  lemma PassesAreBounded(c: Config, s: State, id: MessageId)
    requires AccountInv(s) && BudgetInv(c, s) && id in s.past.accounts
    ensures s.past.accounts[id].writeBacks <= Budget(c) + 1
    ensures s.past.accounts[id].writeBacks == Budget(c) + 1 ==> id !in s.table || s.table[id].Terminal()
    ensures id in s.table ==> s.table[id].retryCount <= Budget(c)
  {
    assert Balanced(s.past.accounts[id], s.table, id);
  }

  // Passes that are not interrupted: when no lock on the message ever expired, it is terminal
  // after at most Budget + 1 locks, whatever the passes met.
  lemma UninterruptedPassesFinish(c: Config, s: State, id: MessageId)
    requires AccountInv(s) && BudgetInv(c, s) && id in s.past.accounts
    requires s.past.accounts[id].released == 0 && s.past.accounts[id].takenOver == 0
    ensures s.past.accounts[id].acquired <= Budget(c) + 1
    ensures s.past.accounts[id].acquired == Budget(c) + 1 ==>
              id !in s.table || s.table[id].Terminal() || s.table[id].status == Processing
  {
    assert Balanced(s.past.accounts[id], s.table, id);
    PassesAreBounded(c, s, id);
  }

  // ---- What a dead letter was decided on ----------------------------------------------------

  ghost predicate DeadForBudget(s: State, m: MessageId) {
    m in s.table && s.table[m].status == DeadLettered && m in s.past.deadBy && s.past.deadBy[m].BudgetSpent?
  }

  // A message dead-lettered for its budget was decided on its true RetryCount.
  ghost predicate DeadSnapshotInv(s: State) {
    forall m :: DeadForBudget(s, m) ==>
      s.table[m].retryCount == s.past.deadBy[m].snapshot
  }

  lemma CauseSnapshot(c: Config, w: WorkerId, k: Worker)
    requires k.phase.Deciding? || k.phase.Failing? || k.phase.Routed?
    ensures CauseOf(c, w, k).BudgetSpent? ==> CauseOf(c, w, k).snapshot == k.retrySnapshot
  {
  }

  lemma DeadSnapshotStep(c: Config, s: State, step: Step)
    requires TxInv(s) && RowInv(s) && LeaseInv(s) && EvidenceInv(c, s) && DeadSnapshotInv(s) && Enabled(c, s, step)
    ensures DeadSnapshotInv(Apply(c, s, step))
  {
    var s' := Apply(c, s, step);
    forall m | DeadForBudget(s', m)
      ensures s'.table[m].retryCount == s'.past.deadBy[m].snapshot
    {
      TerminalOrigin(c, s, step, m);
      if KeptTerminal(s, s', m) {
        assert Evidenced(c, s, m);
      } else {
        CauseSnapshot(c, step.w, s.workers[step.w]);
        assert HoldsLease(s.table, s.now, s.workers[step.w]);
      }
    }
  }
}
