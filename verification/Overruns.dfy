// What a pass that outlives its lease can break. Write-backs test LockedBy and not
// LockedUntil; this module says exactly when that costs a live pass its lock or the message
// its retry budget.

module Overruns {
  import opened OutboxTypes
  import opened MessageTable
  import opened Delivery
  import opened Protocol
  import opened Conservation
  import opened Leases

  // ---- Live passes ------------------------------------------------------------------------

  predicate Live(k: Worker, now: Instant) {
    k.leaseEnd >= now
  }

  predicate HoldsRow(t: Table, k: Worker) {
    && Owns(t, k.messageId, k.instance)
    && t[k.messageId].lockedUntil == Some(k.leaseEnd)
    && t[k.messageId].retryCount == k.retrySnapshot
  }

  ghost predicate RowsHeld(t: Table, now: Instant, workers: map<WorkerId, Worker>) {
    forall w :: w in workers && Live(workers[w], now) ==> HoldsRow(t, workers[w])
  }

  ghost predicate NoTwoLive(now: Instant, workers: map<WorkerId, Worker>) {
    forall v, w | v in workers && w in workers ::
      Live(workers[v], now) && Live(workers[w], now) && workers[v].messageId == workers[w].messageId ==> v == w
  }

  // Every pass whose lease has not ended holds its row, and no other such pass is on it.
  ghost predicate LiveHold(t: Table, now: Instant, workers: map<WorkerId, Worker>) {
    RowsHeld(t, now, workers) && NoTwoLive(now, workers)
  }

  ghost predicate LiveInv(s: State) {
    LiveHold(s.table, s.now, s.workers)
  }

  // The write-back changes the row.
  ghost predicate Lands(c: Config, s: State, w: WorkerId) {
    && ReadyToWriteBack(s, w)
    && VerdictOf(c, s.workers[w]) != Abandon
    && Owns(s.table, s.workers[w].messageId, s.workers[w].instance)
  }

  ghost predicate OtherLive(s: State, w: WorkerId)
    requires w in s.workers
  {
    exists v :: v in s.workers && v != w && s.workers[v].messageId == s.workers[w].messageId
        && Live(s.workers[v], s.now)
  }

  // The write-back the missing guard lets through: it frees a row another pass still holds.
  ghost predicate Clobbers(c: Config, s: State, step: Step) {
    step.WriteBack? && Lands(c, s, step.w) && OtherLive(s, step.w)
  }

  // ---- Which step costs a live pass its lock ------------------------------------------------

  // Exactly one kind of step takes the row from a live pass. Locks never do, with or without (H).
  lemma LiveStepExact(c: Config, s: State, step: Step)
    requires TxInv(s) && RowInv(s) && LiveInv(s) && Enabled(c, s, step)
    ensures LiveInv(Apply(c, s, step)) <==> !Clobbers(c, s, step)
  {
    if PassStep(step) {
      LivePass(c, s, step);
    } else {
      match step
      case WriteBack(w, nextRetryAt) => LiveWriteBack(c, s, w, nextRetryAt);
      case HotLock(w, instance, id, visibility) => LiveHotLock(c, s, w, instance, id, visibility);
      case ColdLock(instance, o, skip, passes) => LiveColdLock(c, s, instance, o, skip, passes);
      case _ => LiveTable(c, s, step);
    }
  }

  lemma LivePass(c: Config, s: State, step: Step)
    requires LiveInv(s) && Enabled(c, s, step) && PassStep(step)
    ensures LiveInv(Apply(c, s, step))
  {
    PassStepFrame(c, s, step);
    PassStepWorkers(c, s, step);
    var s' := Apply(c, s, step);
    LiveFewer(s.table, s.now, s'.now, s.workers, s'.workers);
  }

  lemma LiveFewer(t: Table, now: Instant, now': Instant, workers: map<WorkerId, Worker>,
                  workers': map<WorkerId, Worker>)
    requires LiveHold(t, now, workers) && now' >= now
    requires forall w :: w in workers' ==> w in workers && SameLease(workers'[w], workers[w])
    ensures LiveHold(t, now', workers')
  {
  }

  // Rows that are not locked, or whose lock has ended, belong to no live pass.
  lemma LiveOtherRows(t: Table, t': Table, now: Instant, workers: map<WorkerId, Worker>)
    requires LiveHold(t, now, workers)
    requires forall w :: w in workers && HoldsRow(t, workers[w]) && Live(workers[w], now) ==>
               workers[w].messageId in t' && t'[workers[w].messageId] == t[workers[w].messageId]
    ensures LiveHold(t', now, workers)
  {
  }

  lemma LiveTable(c: Config, s: State, step: Step)
    requires TxInv(s) && RowInv(s) && LiveInv(s) && Enabled(c, s, step)
    requires step.Insert? || step.Commit? || step.Rollback? || step.Release? || step.PurgeOld?
    ensures LiveInv(Apply(c, s, step))
  {
    LiveOtherRows(s.table, Apply(c, s, step).table, s.now, s.workers);
  }

  lemma NewPassHoldsRow(t: Table, taken: set<MessageId>, id: MessageId, instance: InstanceId, until: Instant)
    requires id in t && id in taken
    ensures HoldsRow(LockAll(t, taken, instance, until), StartWorker(t, id, instance, until))
  {
  }

  // A lock needs the row's lease to have ended, so no live pass was on it.
  lemma OldPassKeepsRow(t: Table, taken: set<MessageId>, instance: InstanceId, now: Instant, until: Instant, k: Worker)
    requires HoldsRow(t, k) && Live(k, now)
    requires forall id :: id in taken ==> id in t && LeaseFree(t[id], now)
    ensures HoldsRow(LockAll(t, taken, instance, until), k) && k.messageId !in taken
  {
  }

  lemma LockedApart(now: Instant, passes: map<WorkerId, MessageId>, workers: map<WorkerId, Worker>,
                    workers': map<WorkerId, Worker>)
    requires NoTwoLive(now, workers) && Injective(passes) && workers'.Keys == workers.Keys + passes.Keys
    requires forall v :: v in workers && v !in passes ==> workers'[v] == workers[v]
    requires forall v :: v in passes ==> workers'[v].messageId == passes[v]
    requires forall v :: v in workers && Live(workers[v], now) ==> workers[v].messageId !in passes.Values
    ensures NoTwoLive(now, workers')
  {
    assert forall v :: v in passes ==> passes[v] in passes.Values;
  }

  lemma LiveColdLock(c: Config, s: State, instance: InstanceId, o: LockOptions, skip: set<MessageId>,
                     passes: map<WorkerId, MessageId>)
    requires TxInv(s) && LiveInv(s) && Enabled(c, s, ColdLock(instance, o, skip, passes))
    ensures LiveInv(Apply(c, s, ColdLock(instance, o, skip, passes)))
  {
    ColdLockTakes(c, s, instance, o, skip, passes);
    LiveAllLocked(s, instance, o.visibility, passes);
  }

  lemma LiveAllLocked(s: State, instance: InstanceId, visibility: int, passes: map<WorkerId, MessageId>)
    requires LiveInv(s) && passes.Keys !! s.workers.Keys && Injective(passes)
    requires forall w :: w in passes ==> passes[w] in s.table && LeaseFree(s.table[passes[w]], s.now)
    ensures LiveInv(ApplyColdLock(s, instance, visibility, passes))
  {
    var s' := ApplyColdLock(s, instance, visibility, passes);
    forall v | v in s.workers && Live(s.workers[v], s.now)
      ensures HoldsRow(s'.table, s.workers[v]) && s.workers[v].messageId !in passes.Values
    {
      OldPassKeepsRow(s.table, passes.Values, instance, s.now, s.now + visibility, s.workers[v]);
    }
    LockedApart(s.now, passes, s.workers, s'.workers);
    forall v | v in s'.workers && Live(s'.workers[v], s.now) ensures HoldsRow(s'.table, s'.workers[v]) {
      if v in passes {
        NewPassHoldsRow(s.table, passes.Values, passes[v], instance, s.now + visibility);
      }
    }
  }

  lemma LiveHotLock(c: Config, s: State, w: WorkerId, instance: InstanceId, id: MessageId, visibility: int)
    requires TxInv(s) && LiveInv(s) && Enabled(c, s, HotLock(w, instance, id, visibility))
    ensures LiveInv(Apply(c, s, HotLock(w, instance, id, visibility)))
  {
    LiveHotLocked(s, w, instance, id, visibility);
  }

  lemma LiveHotLocked(s: State, w: WorkerId, instance: InstanceId, id: MessageId, visibility: int)
    requires LiveInv(s) && w !in s.workers && id in s.table && LeaseFree(s.table[id], s.now)
    ensures LiveInv(ApplyHotLock(s, w, instance, id, visibility))
  {
    var s' := ApplyHotLock(s, w, instance, id, visibility);
    forall v | v in s'.workers && v != w && Live(s'.workers[v], s.now)
      ensures HoldsRow(s'.table, s'.workers[v]) && s'.workers[v].messageId != id
    {
      assert HoldsRow(s.table, s.workers[v]);
    }
  }

  lemma LiveWriteBack(c: Config, s: State, w: WorkerId, nextRetryAt: Instant)
    requires RowInv(s) && LiveInv(s) && Enabled(c, s, WriteBack(w, nextRetryAt))
    ensures LiveInv(Apply(c, s, WriteBack(w, nextRetryAt))) <==> !Clobbers(c, s, WriteBack(w, nextRetryAt))
  {
    LiveVerdict(s, w, VerdictOf(c, s.workers[w]), CauseOf(c, w, s.workers[w]), nextRetryAt);
  }

  lemma LiveVerdict(s: State, w: WorkerId, verdict: Verdict, cause: DeadCause, nextRetryAt: Instant)
    requires RowInv(s) && LiveInv(s) && ReadyToWriteBack(s, w)
    ensures LiveInv(ApplyVerdict(s, w, verdict, cause, nextRetryAt))
            <==> (verdict == Abandon || !Owns(s.table, s.workers[w].messageId, s.workers[w].instance)
                  || !OtherLive(s, w))
  {
    var m := s.workers[w].messageId;
    var s' := ApplyVerdict(s, w, verdict, cause, nextRetryAt);
    if verdict != Abandon && Owns(s.table, m, s.workers[w].instance) {
      if OtherLive(s, w) {
        var v :| v in s.workers && v != w && s.workers[v].messageId == m && Live(s.workers[v], s.now);
        assert v in s'.workers && s'.workers[v] == s.workers[v] && !Owns(s'.table, m, s.workers[v].instance);
      } else {
        LiveFewer(s.table, s.now, s.now, s.workers, s'.workers);
        LiveOtherRows(s.table, s'.table, s.now, s'.workers);
      }
    } else {
      LiveFewer(s.table, s.now, s.now, s.workers, s'.workers);
    }
  }

  // The guard that is missing from the write-backs: the row still carries the pass's own
  // LockedUntil. It fails for every write-back that clobbers and holds for every live pass.
  // (Comparing LockedUntil with the clock would not do: the row carries the newer lease.)
  lemma GuardStopsClobbers(c: Config, s: State, step: Step)
    requires LiveInv(s) && Enabled(c, s, step) && step.WriteBack? && Lands(c, s, step.w)
    ensures Clobbers(c, s, step) ==>
              s.table[s.workers[step.w].messageId].lockedUntil != Some(s.workers[step.w].leaseEnd)
    ensures Clobbers(c, s, step) ==>
              exists until :: s.table[s.workers[step.w].messageId].lockedUntil == Some(until) && until >= s.now
    ensures Live(s.workers[step.w], s.now) ==>
              s.table[s.workers[step.w].messageId].lockedUntil == Some(s.workers[step.w].leaseEnd)
  {
    var w := step.w;
    if Live(s.workers[w], s.now) {
      assert HoldsRow(s.table, s.workers[w]);
    }
    if Clobbers(c, s, step) {
      var v :| v in s.workers && v != w && s.workers[v].messageId == s.workers[w].messageId
          && Live(s.workers[v], s.now);
      assert HoldsRow(s.table, s.workers[v]);
      assert s.table[s.workers[w].messageId].lockedUntil == Some(s.workers[v].leaseEnd);
    }
  }

  // The pass is the instance's own, on a message the step locks, and has outlived its lease.
  ghost predicate OwnOverrun(s: State, step: Step, w: WorkerId) {
    && w in s.workers && !Live(s.workers[w], s.now)
    && (|| (step.HotLock? && s.workers[w].instance == step.instance && s.workers[w].messageId == step.id)
        || (step.ColdLock? && s.workers[w].instance == step.instance && s.workers[w].messageId in step.passes.Values))
  }

  // A lock that does not respect (H) is taken over a pass of the same instance on the same
  // message that has already overrun; and a lock over such a pass does not respect it.
  lemma OnlyOverrunsBreakH(c: Config, s: State, step: Step)
    requires TxInv(s) && LiveInv(s) && Enabled(c, s, step)
    ensures !Exclusive(s, step) <==> exists w :: OwnOverrun(s, step, w)
  {
    match step
    case HotLock(_, instance, id, _) =>
      if !Exclusive(s, step) {
        var w := OwnPassOverran(s, instance, id);
        assert OwnOverrun(s, step, w);
      }
    case ColdLock(instance, o, skip, passes) =>
      ColdLockTakes(c, s, instance, o, skip, passes);
      if !Exclusive(s, step) {
        var v :| v in passes && !NoPassOf(s, instance, passes[v]);
        var w := OwnPassOverran(s, instance, passes[v]);
        assert passes[v] in passes.Values && OwnOverrun(s, step, w);
      }
    case _ =>
  }

  lemma OwnPassOverran(s: State, instance: InstanceId, id: MessageId) returns (w: WorkerId)
    requires LiveInv(s) && !NoPassOf(s, instance, id)
    requires id in s.table && LeaseFree(s.table[id], s.now)
    ensures w in s.workers && s.workers[w].instance == instance && s.workers[w].messageId == id
    ensures !Live(s.workers[w], s.now)
  {
    w :| w in s.workers && s.workers[w].instance == instance && s.workers[w].messageId == id;
    assert Live(s.workers[w], s.now) ==> HoldsRow(s.table, s.workers[w]);
  }

  // ---- Which step overspends the retry budget -----------------------------------------------

  // A retry written onto a row that has none left.
  ghost predicate Overspends(c: Config, s: State, step: Step) {
    && step.WriteBack? && Lands(c, s, step.w)
    && VerdictOf(c, s.workers[step.w]) == Retry
    && s.table[s.workers[step.w].messageId].retryCount >= Budget(c)
  }

  lemma BudgetStepExact(c: Config, s: State, step: Step)
    requires TxInv(s) && AccountInv(s) && BudgetInv(c, s) && Enabled(c, s, step)
    ensures BudgetInv(c, Apply(c, s, step)) <==> !Overspends(c, s, step)
  {
    if step.WriteBack? {
      BudgetWriteBackExact(c, s, step.w, step.nextRetryAt);
    } else {
      RetriesFrame(c, s, step);
    }
  }

  lemma BudgetWriteBackExact(c: Config, s: State, w: WorkerId, nextRetryAt: Instant)
    requires TxInv(s) && AccountInv(s) && BudgetInv(c, s) && Enabled(c, s, WriteBack(w, nextRetryAt))
    ensures BudgetInv(c, Apply(c, s, WriteBack(w, nextRetryAt))) <==> !Overspends(c, s, WriteBack(w, nextRetryAt))
  {
    BudgetVerdictExact(c, s, w, VerdictOf(c, s.workers[w]), CauseOf(c, w, s.workers[w]), nextRetryAt);
  }

  lemma BudgetVerdictExact(c: Config, s: State, w: WorkerId, verdict: Verdict, cause: DeadCause, nextRetryAt: Instant)
    requires TxInv(s) && AccountInv(s) && BudgetInv(c, s) && ReadyToWriteBack(s, w)
    ensures var m := s.workers[w].messageId;
            BudgetInv(c, ApplyVerdict(s, w, verdict, cause, nextRetryAt)) <==>
              !(verdict == Retry && Owns(s.table, m, s.workers[w].instance) && s.table[m].retryCount >= Budget(c))
  {
    var m := s.workers[w].messageId;
    var s' := ApplyVerdict(s, w, verdict, cause, nextRetryAt);
    if verdict == Retry && Owns(s.table, m, s.workers[w].instance) {
      assert Balanced(s.past.accounts[m], s.table, m);
      assert s'.past.accounts[m].retries == s.past.accounts[m].retries + 1;
      assert forall id :: id in s.past.accounts && id != m ==> s'.past.accounts[id] == s.past.accounts[id];
    } else {
      assert forall id :: id in s.past.accounts ==> s'.past.accounts[id].retries == s.past.accounts[id].retries;
    }
  }

  // ---- Runs ---------------------------------------------------------------------------------

  ghost predicate NeverClobbers(c: Config, s: State, steps: seq<Step>)
    requires IsRun(c, s, steps)
    decreases |steps|
  {
    steps == [] || (!Clobbers(c, s, steps[0]) && NeverClobbers(c, Apply(c, s, steps[0]), steps[1..]))
  }

  ghost predicate NeverOverspends(c: Config, s: State, steps: seq<Step>)
    requires IsRun(c, s, steps)
    decreases |steps|
  {
    steps == [] || (!Overspends(c, s, steps[0]) && NeverOverspends(c, Apply(c, s, steps[0]), steps[1..]))
  }

  // Live passes hold their rows in every state of the run.
  ghost predicate LiveThroughout(c: Config, s: State, steps: seq<Step>)
    requires IsRun(c, s, steps)
    decreases |steps|
  {
    LiveInv(s) && (steps == [] || LiveThroughout(c, Apply(c, s, steps[0]), steps[1..]))
  }

  ghost predicate BudgetThroughout(c: Config, s: State, steps: seq<Step>)
    requires IsRun(c, s, steps)
    decreases |steps|
  {
    BudgetInv(c, s) && (steps == [] || BudgetThroughout(c, Apply(c, s, steps[0]), steps[1..]))
  }

  lemma {:induction false} LiveRunExact(c: Config, s: State, steps: seq<Step>)
    requires TxInv(s) && RowInv(s) && LiveInv(s) && IsRun(c, s, steps)
    ensures LiveThroughout(c, s, steps) <==> NeverClobbers(c, s, steps)
    decreases |steps|
  {
    if steps != [] {
      TxStep(c, s, steps[0]);
      RowStep(c, s, steps[0]);
      LiveStepExact(c, s, steps[0]);
      var s' := Apply(c, s, steps[0]);
      if LiveInv(s') {
        LiveRunExact(c, s', steps[1..]);
      } else {
        NotLiveNow(c, s', steps[1..]);
      }
    }
  }

  lemma NotLiveNow(c: Config, s: State, steps: seq<Step>)
    requires IsRun(c, s, steps) && !LiveInv(s)
    ensures !LiveThroughout(c, s, steps)
  {
  }

  lemma {:induction false} BudgetRunExact(c: Config, s: State, steps: seq<Step>)
    requires TxInv(s) && RowInv(s) && AccountInv(s) && BudgetInv(c, s) && IsRun(c, s, steps)
    ensures BudgetThroughout(c, s, steps) <==> NeverOverspends(c, s, steps)
    decreases |steps|
  {
    if steps != [] {
      TxStep(c, s, steps[0]);
      RowStep(c, s, steps[0]);
      AccountStep(c, s, steps[0]);
      BudgetStepExact(c, s, steps[0]);
      var s' := Apply(c, s, steps[0]);
      if BudgetInv(c, s') {
        BudgetRunExact(c, s', steps[1..]);
      } else {
        OverBudgetNow(c, s', steps[1..]);
      }
    }
  }

  lemma OverBudgetNow(c: Config, s: State, steps: seq<Step>)
    requires IsRun(c, s, steps) && !BudgetInv(c, s)
    ensures !BudgetThroughout(c, s, steps)
  {
  }

  // ---- Writing back in time -----------------------------------------------------------------

  // Every write-back that lands comes before its pass's lease ends.
  ghost predicate WritesInTime(c: Config, s: State, steps: seq<Step>)
    requires IsRun(c, s, steps)
    decreases |steps|
  {
    steps == [] || (InTime(c, s, steps[0]) && WritesInTime(c, Apply(c, s, steps[0]), steps[1..]))
  }

  ghost predicate InTime(c: Config, s: State, step: Step) {
    step.WriteBack? && Lands(c, s, step.w) ==> Live(s.workers[step.w], s.now)
  }

  lemma InTimeIsSafe(c: Config, s: State, step: Step)
    requires LiveInv(s) && Enabled(c, s, step) && InTime(c, s, step)
    ensures !Clobbers(c, s, step) && !Overspends(c, s, step)
  {
    if step.WriteBack? && Lands(c, s, step.w) {
      assert HoldsRow(s.table, s.workers[step.w]);
      SnapshotWithinBudget(c, s.workers[step.w]);
    }
  }

  lemma {:induction false} WritesInTimeRun(c: Config, s: State, steps: seq<Step>)
    requires TxInv(s) && RowInv(s) && AccountInv(s) && LiveInv(s) && BudgetInv(c, s)
    requires IsRun(c, s, steps) && WritesInTime(c, s, steps)
    ensures LiveInv(End(c, s, steps)) && BudgetInv(c, End(c, s, steps)) && AccountInv(End(c, s, steps))
    decreases |steps|
  {
    if steps != [] {
      InTimeIsSafe(c, s, steps[0]);
      TxStep(c, s, steps[0]);
      RowStep(c, s, steps[0]);
      AccountStep(c, s, steps[0]);
      LiveStepExact(c, s, steps[0]);
      BudgetStepExact(c, s, steps[0]);
      WritesInTimeRun(c, Apply(c, s, steps[0]), steps[1..]);
    }
  }

  // Without (H): as long as no write-back lands after its lease, two unexpired passes are never
  // on one message, each holds its row, and the retry budget is kept.
  lemma InTimeTheorem(c: Config, steps: seq<Step>, m: MessageId)
    requires IsRun(c, INIT, steps) && WritesInTime(c, INIT, steps)
    ensures LiveInv(End(c, INIT, steps))
    ensures m in End(c, INIT, steps).table ==> End(c, INIT, steps).table[m].retryCount <= Budget(c)
  {
    WritesInTimeRun(c, INIT, steps);
    var s := End(c, INIT, steps);
    TxRowRun(c, INIT, steps);
    if m in s.table {
      assert Balanced(s.past.accounts[m], s.table, m);
    }
  }

  lemma {:induction false} TxRowRun(c: Config, s: State, steps: seq<Step>)
    requires TxInv(s) && RowInv(s) && IsRun(c, s, steps)
    ensures TxInv(End(c, s, steps)) && RowInv(End(c, s, steps))
    decreases |steps|
  {
    if steps != [] {
      TxStep(c, s, steps[0]);
      RowStep(c, s, steps[0]);
      TxRowRun(c, Apply(c, s, steps[0]), steps[1..]);
    }
  }

  // ---- A visibility timeout longer than the pass ----------------------------------------------

  ghost predicate NobodyOverran(s: State) {
    forall w :: w in s.workers ==> Live(s.workers[w], s.now)
  }

  // No pass is still in flight when its lease ends.
  ghost predicate LeasesSuffice(c: Config, s: State, steps: seq<Step>)
    requires IsRun(c, s, steps)
    decreases |steps|
  {
    NobodyOverran(s) && (steps == [] || LeasesSuffice(c, Apply(c, s, steps[0]), steps[1..]))
  }

  // The documented setting implies (H) and timely write-backs, and with either one everything
  // that needs them.
  lemma {:induction false} LeasesSufficeRun(c: Config, s: State, steps: seq<Step>)
    requires TxInv(s) && RowInv(s) && LiveInv(s) && IsRun(c, s, steps) && LeasesSuffice(c, s, steps)
    ensures ExclusiveRun(c, s, steps) && WritesInTime(c, s, steps)
    decreases |steps|
  {
    if steps != [] {
      if !Exclusive(s, steps[0]) {
        OnlyOverrunsBreakH(c, s, steps[0]);
      }
      InTimeIsSafe(c, s, steps[0]);
      TxStep(c, s, steps[0]);
      RowStep(c, s, steps[0]);
      LiveStepExact(c, s, steps[0]);
      LeasesSufficeRun(c, Apply(c, s, steps[0]), steps[1..]);
    }
  }

  lemma LeasesSufficeTheorem(c: Config, steps: seq<Step>, m: MessageId)
    requires IsRun(c, INIT, steps) && LeasesSuffice(c, INIT, steps)
    ensures ExclusiveRun(c, INIT, steps) && LiveInv(End(c, INIT, steps))
    ensures m in End(c, INIT, steps).table ==> End(c, INIT, steps).table[m].retryCount <= Budget(c)
  {
    LeasesSufficeRun(c, INIT, steps);
    InTimeTheorem(c, steps, m);
  }
}
