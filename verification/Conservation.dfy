// Transactions, row shape and accounting: what holds of the message table in every
// reachable state, with any number of stale or crashed passes.

module Conservation {
  import opened OutboxTypes
  import opened MessageTable
  import opened Delivery
  import opened Protocol

  // ---- Nothing committed is lost, nothing rolled back is touched --------------------------

  ghost predicate TxInv(s: State) {
    && s.past.committed == s.table.Keys + s.past.purged.Keys
    && s.table.Keys !! s.past.purged.Keys
    && s.open.Keys !! s.past.committed
    && s.past.rolledBack !! s.past.committed
    && s.open.Keys !! s.past.rolledBack
    && (forall id :: id in s.past.purged ==> s.past.purged[id].Terminal())
    && (forall w :: w in s.workers ==> s.workers[w].messageId in s.past.committed && w in s.past.lockedAs)
    && (forall p :: p in s.past.accepted ==> p.1.messageId in s.past.committed)
    && (forall p :: p in s.past.failed ==> p.1.messageId in s.past.committed)
  }

  lemma TxStep(c: Config, s: State, step: Step)
    requires TxInv(s) && Enabled(c, s, step)
    ensures TxInv(Apply(c, s, step))
  {
    if PassStep(step) {
      TxPass(c, s, step);
    } else {
      match step
      case ColdLock(instance, o, skip, passes) => TxColdLockStep(c, s, instance, o, skip, passes);
      case WriteBack(w, nextRetryAt) => TxWriteBackStep(c, s, w, nextRetryAt);
      case Insert(_, _, _) => TxTransaction(c, s, step);
      case Commit(_) => TxTransaction(c, s, step);
      case Rollback(_) => TxTransaction(c, s, step);
      case HotLock(w, instance, id, visibility) => TxHotLock(c, s, w, instance, id, visibility);
      case _ => TxOther(c, s, step);
    }
  }

  lemma TxColdLockStep(c: Config, s: State, instance: InstanceId, o: LockOptions, skip: set<MessageId>,
                       passes: map<WorkerId, MessageId>)
    requires TxInv(s) && Enabled(c, s, ColdLock(instance, o, skip, passes))
    ensures TxInv(Apply(c, s, ColdLock(instance, o, skip, passes)))
  {
    ColdLockTakes(c, s, instance, o, skip, passes);
    TxColdLock(s, instance, o.visibility, passes);
  }

  lemma TxWriteBackStep(c: Config, s: State, w: WorkerId, nextRetryAt: Instant)
    requires TxInv(s) && Enabled(c, s, WriteBack(w, nextRetryAt))
    ensures TxInv(Apply(c, s, WriteBack(w, nextRetryAt)))
  {
    TxVerdict(s, w, VerdictOf(c, s.workers[w]), CauseOf(c, w, s.workers[w]), nextRetryAt);
  }

  lemma TxColdLock(s: State, instance: InstanceId, visibility: int, passes: map<WorkerId, MessageId>)
    requires TxInv(s)
    requires forall w :: w in passes ==> passes[w] in s.table
    ensures TxInv(ApplyColdLock(s, instance, visibility, passes))
  {
  }

  lemma TxPost(s: State, w: WorkerId, sub: SubscriptionId, acceptedByReceiver: bool, result: AttemptStatus)
    requires TxInv(s) && InDelivery(s, w)
    ensures TxInv(ApplyPost(s, w, sub, acceptedByReceiver, result))
  {
  }

  lemma TxVerdict(s: State, w: WorkerId, verdict: Verdict, cause: DeadCause, nextRetryAt: Instant)
    requires TxInv(s) && ReadyToWriteBack(s, w)
    ensures TxInv(ApplyVerdict(s, w, verdict, cause, nextRetryAt))
  {
  }

  lemma TxOther(c: Config, s: State, step: Step)
    requires TxInv(s) && Enabled(c, s, step)
    requires step.Release? || step.PurgeOld?
    ensures TxInv(Apply(c, s, step))
  {
  }

  lemma TxHotLock(c: Config, s: State, w: WorkerId, instance: InstanceId, id: MessageId, visibility: int)
    requires TxInv(s) && Enabled(c, s, HotLock(w, instance, id, visibility))
    ensures TxInv(Apply(c, s, HotLock(w, instance, id, visibility)))
  {
  }

  lemma TxTransaction(c: Config, s: State, step: Step)
    requires TxInv(s) && Enabled(c, s, step)
    requires step.Insert? || step.Commit? || step.Rollback?
    ensures TxInv(Apply(c, s, step))
  {
  }

  lemma TxPass(c: Config, s: State, step: Step)
    requires TxInv(s) && Enabled(c, s, step) && PassStep(step)
    ensures TxInv(Apply(c, s, step))
  {
    if step.Post? {
      TxPost(s, step.w, step.subscription, step.acceptedByReceiver, step.result);
    } else {
      PassStepFrame(c, s, step);
      PassStepWorkers(c, s, step);
      TxFrame(s, Apply(c, s, step));
    }
  }

  lemma TxFrame(s: State, s': State)
    requires TxInv(s)
    requires s'.past.committed == s.past.committed && s'.table == s.table && s'.past.purged == s.past.purged
        && s'.open == s.open
    requires s'.past.rolledBack == s.past.rolledBack && s'.past.lockedAs == s.past.lockedAs
    requires s'.past.accepted == s.past.accepted && s'.past.failed == s.past.failed
    requires forall w :: w in s'.workers ==> w in s.workers && s'.workers[w].messageId == s.workers[w].messageId
    ensures TxInv(s')
  {
  }

  // ---- Row shape ------------------------------------------------------------------------

  ghost predicate RowInv(s: State) {
    && RowsOk(s.table)
    && (forall id :: id in s.open ==> s.open[id].status == Pending && s.open[id].lockedBy.None?
                                      && s.open[id].lockedUntil.None? && s.open[id].retryCount == 0)
  }

  lemma RowStep(c: Config, s: State, step: Step)
    requires RowInv(s) && Enabled(c, s, step)
    ensures RowInv(Apply(c, s, step))
  {
    if PassStep(step) {
      PassStepFrame(c, s, step);
    } else {
      match step
      case WriteBack(w, nextRetryAt) => RowWriteBackStep(c, s, w, nextRetryAt);
      case ColdLock(instance, o, skip, passes) => RowColdLockStep(c, s, instance, o, skip, passes);
      case _ =>
    }
  }

  lemma RowWriteBackStep(c: Config, s: State, w: WorkerId, nextRetryAt: Instant)
    requires RowInv(s) && Enabled(c, s, WriteBack(w, nextRetryAt))
    ensures RowInv(Apply(c, s, WriteBack(w, nextRetryAt)))
  {
    RowVerdict(s, w, VerdictOf(c, s.workers[w]), CauseOf(c, w, s.workers[w]), nextRetryAt);
  }

  lemma RowColdLockStep(c: Config, s: State, instance: InstanceId, o: LockOptions, skip: set<MessageId>,
                        passes: map<WorkerId, MessageId>)
    requires RowInv(s) && Enabled(c, s, ColdLock(instance, o, skip, passes))
    ensures RowInv(Apply(c, s, ColdLock(instance, o, skip, passes)))
  {
    ColdLockTakes(c, s, instance, o, skip, passes);
    RowColdLock(s, instance, o.visibility, passes);
  }

  lemma RowColdLock(s: State, instance: InstanceId, visibility: int, passes: map<WorkerId, MessageId>)
    requires RowInv(s)
    requires forall w :: w in passes ==> passes[w] in s.table
    ensures RowInv(ApplyColdLock(s, instance, visibility, passes))
  {
  }

  lemma RowVerdict(s: State, w: WorkerId, verdict: Verdict, cause: DeadCause, nextRetryAt: Instant)
    requires RowInv(s) && ReadyToWriteBack(s, w)
    ensures RowInv(ApplyVerdict(s, w, verdict, cause, nextRetryAt))
  {
  }

  // A terminal row is out of reach of every lock, late write-back and release: it keeps its
  // value until it is purged, and the purge keeps it too.
  ghost predicate Settled(s: State, id: MessageId, row: Message) {
    || (id in s.table && s.table[id] == row)
    || (id in s.past.purged && s.past.purged[id] == row)
  }

  lemma TerminalStep(c: Config, s: State, step: Step, id: MessageId, row: Message)
    requires TxInv(s) && RowInv(s) && Enabled(c, s, step)
    requires row.Terminal() && Settled(s, id, row)
    ensures Settled(Apply(c, s, step), id, row)
  {
    if PassStep(step) {
      PassStepFrame(c, s, step);
    } else {
      match step
      case WriteBack(w, nextRetryAt) => TerminalWriteBackStep(c, s, w, nextRetryAt, id, row);
      case ColdLock(instance, o, skip, passes) => ColdLockTakes(c, s, instance, o, skip, passes);
      case _ =>
    }
  }

  lemma TerminalWriteBackStep(c: Config, s: State, w: WorkerId, nextRetryAt: Instant, id: MessageId, row: Message)
    requires RowInv(s) && Enabled(c, s, WriteBack(w, nextRetryAt))
    requires row.Terminal() && Settled(s, id, row)
    ensures Settled(Apply(c, s, WriteBack(w, nextRetryAt)), id, row)
  {
    TerminalVerdict(s, w, VerdictOf(c, s.workers[w]), CauseOf(c, w, s.workers[w]), nextRetryAt, id, row);
  }

  lemma TerminalVerdict(s: State, w: WorkerId, verdict: Verdict, cause: DeadCause, nextRetryAt: Instant,
                        id: MessageId, row: Message)
    requires RowInv(s) && ReadyToWriteBack(s, w)
    requires row.Terminal() && Settled(s, id, row)
    ensures Settled(ApplyVerdict(s, w, verdict, cause, nextRetryAt), id, row)
  {
  }

  // ---- Accounting -----------------------------------------------------------------------

  function Flag(b: bool): nat {
    if b then 1 else 0
  }

  // Every lock taken on a message was written back, released on expiry, taken over after
  // expiry, or is still held; only IncrementRetry moves RetryCount; and every write-back
  // but a retry ends the message.
  predicate Balanced(a: Account, t: Table, id: MessageId) {
    && a.acquired == a.writeBacks + a.released + a.takenOver + Flag(id in t && t[id].status == Processing)
    && a.writeBacks == a.retries + Flag(id !in t || t[id].Terminal())
    && (id in t ==> t[id].retryCount == a.retries)
  }

  ghost predicate AccountInv(s: State) {
    && s.past.accounts.Keys == s.past.committed
    && AllBalanced(s.past.accounts, s.table)
  }

  ghost predicate AllBalanced(accounts: map<MessageId, Account>, t: Table) {
    forall id :: id in accounts ==> Balanced(accounts[id], t, id)
  }

  lemma AccountStep(c: Config, s: State, step: Step)
    requires TxInv(s) && RowInv(s) && AccountInv(s) && Enabled(c, s, step)
    ensures AccountInv(Apply(c, s, step))
  {
    if PassStep(step) {
      AccountPass(c, s, step);
    } else if step.Insert? || step.Commit? || step.Rollback? {
      AccountTransaction(c, s, step);
    } else {
      match step
      case WriteBack(w, nextRetryAt) => AccountWriteBackStep(c, s, w, nextRetryAt);
      case ColdLock(instance, o, skip, passes) => AccountColdLock(c, s, instance, o, skip, passes);
      case HotLock(w, instance, id, visibility) => AccountHotLock(c, s, w, instance, id, visibility);
      case Release => AccountRelease(c, s);
      case PurgeOld(olderThan) => AccountPurge(c, s, olderThan);
    }
  }

  lemma AccountPass(c: Config, s: State, step: Step)
    requires AccountInv(s) && Enabled(c, s, step) && PassStep(step)
    ensures AccountInv(Apply(c, s, step))
  {
    PassStepFrame(c, s, step);
  }

  lemma AccountTransaction(c: Config, s: State, step: Step)
    requires TxInv(s) && RowInv(s) && AccountInv(s) && Enabled(c, s, step)
    requires step.Insert? || step.Commit? || step.Rollback?
    ensures AccountInv(Apply(c, s, step))
  {
  }

  lemma AccountColdLock(c: Config, s: State, instance: InstanceId, o: LockOptions, skip: set<MessageId>,
                        passes: map<WorkerId, MessageId>)
    requires TxInv(s) && RowInv(s) && AccountInv(s) && Enabled(c, s, ColdLock(instance, o, skip, passes))
    ensures AccountInv(Apply(c, s, ColdLock(instance, o, skip, passes)))
  {
    ColdLockTakes(c, s, instance, o, skip, passes);
    AccountBatch(s, instance, o.visibility, passes);
  }

  lemma AccountBatch(s: State, instance: InstanceId, visibility: int, passes: map<WorkerId, MessageId>)
    requires AccountInv(s)
    requires forall w :: w in passes ==> passes[w] in s.table && !s.table[passes[w]].Terminal()
    ensures AccountInv(ApplyColdLock(s, instance, visibility, passes))
  {
    var s' := ApplyColdLock(s, instance, visibility, passes);
    var until := s.now + visibility;
    forall id | id in s'.past.accounts ensures Balanced(s'.past.accounts[id], s'.table, id) {
      BalancedPass(s.past.accounts, s.table, passes, instance, until, id);
    }
  }

  lemma BalancedPass(accounts: map<MessageId, Account>, t: Table, passes: map<WorkerId, MessageId>, owner: InstanceId,
                     until: Instant, id: MessageId)
    requires id in accounts && Balanced(accounts[id], t, id)
    requires forall w :: w in passes ==> passes[w] in t && !t[passes[w]].Terminal()
    ensures Balanced(AccountLocks(accounts, t, passes.Values)[id], LockAll(t, passes.Values, owner, until), id)
  {
  }

  lemma AccountHotLock(c: Config, s: State, w: WorkerId, instance: InstanceId, id: MessageId, visibility: int)
    requires TxInv(s) && RowInv(s) && AccountInv(s) && Enabled(c, s, HotLock(w, instance, id, visibility))
    ensures AccountInv(Apply(c, s, HotLock(w, instance, id, visibility)))
  {
    AccountOne(s, w, instance, id, visibility);
  }

  lemma AccountOne(s: State, w: WorkerId, instance: InstanceId, id: MessageId, visibility: int)
    requires AccountInv(s) && id in s.table && !s.table[id].Terminal()
    ensures AccountInv(ApplyHotLock(s, w, instance, id, visibility))
  {
    var s' := ApplyHotLock(s, w, instance, id, visibility);
    forall other | other in s'.past.accounts ensures Balanced(s'.past.accounts[other], s'.table, other) {
      assert Balanced(s.past.accounts[other], s.table, other);
    }
  }

  lemma AccountPurge(c: Config, s: State, olderThan: Instant)
    requires TxInv(s) && AccountInv(s)
    ensures AccountInv(Apply(c, s, PurgeOld(olderThan)))
  {
  }

  lemma AccountRelease(c: Config, s: State)
    requires TxInv(s) && RowInv(s) && AccountInv(s)
    ensures AccountInv(Apply(c, s, Release))
  {
    BalancedReleases(s.past.accounts, s.table, s.now);
  }

  lemma BalancedReleases(accounts: map<MessageId, Account>, t: Table, now: Instant)
    requires AllBalanced(accounts, t)
    ensures AllBalanced(AccountReleases(accounts, t, now), ReleaseExpired(t, now))
  {
    forall id | id in accounts ensures Balanced(AccountReleases(accounts, t, now)[id], ReleaseExpired(t, now), id) {
      assert Balanced(accounts[id], t, id);
    }
  }

  lemma AccountWriteBackStep(c: Config, s: State, w: WorkerId, nextRetryAt: Instant)
    requires TxInv(s) && RowInv(s) && AccountInv(s) && Enabled(c, s, WriteBack(w, nextRetryAt))
    ensures AccountInv(Apply(c, s, WriteBack(w, nextRetryAt)))
  {
    var k := s.workers[w];
    AccountVerdict(s, w, VerdictOf(c, k), CauseOf(c, w, k), nextRetryAt);
  }

  lemma BalancedWriteBack(a: Account, t: Table, id: MessageId, row: Message, retry: bool)
    requires id in t && t[id].status == Processing
    requires Balanced(a, t, id)
    requires if retry then row.status == Pending && row.retryCount == t[id].retryCount + 1
             else row.Terminal() && row.retryCount == t[id].retryCount
    ensures Balanced(a.(writeBacks := a.writeBacks + 1, retries := a.retries + Flag(retry)), t[id := row], id)
  {
  }

  lemma AllBalancedWriteBack(accounts: map<MessageId, Account>, t: Table, id: MessageId, row: Message, retry: bool)
    requires AllBalanced(accounts, t)
    requires id in accounts && id in t && t[id].status == Processing
    requires if retry then row.status == Pending && row.retryCount == t[id].retryCount + 1
             else row.Terminal() && row.retryCount == t[id].retryCount
    ensures AllBalanced(AccountWriteBack(accounts, id, retry), t[id := row])
  {
    BalancedWriteBack(accounts[id], t, id, row, retry);
    forall other | other in accounts && other != id ensures Balanced(accounts[other], t[id := row], other) {
      assert Balanced(accounts[other], t, other);
    }
  }

  lemma RowAfterShape(m: Message, verdict: Verdict, now: Instant, nextRetryAt: Instant)
    requires verdict != Abandon
    ensures var row := RowAfter(m, verdict, now, nextRetryAt);
            if verdict == Retry then row.status == Pending && row.retryCount == m.retryCount + 1
            else row.Terminal() && row.retryCount == m.retryCount
  {
  }

  lemma AccountVerdict(s: State, w: WorkerId, verdict: Verdict, cause: DeadCause, nextRetryAt: Instant)
    requires TxInv(s) && RowInv(s) && AccountInv(s) && ReadyToWriteBack(s, w)
    ensures AccountInv(ApplyVerdict(s, w, verdict, cause, nextRetryAt))
  {
    var id, owner := s.workers[w].messageId, s.workers[w].instance;
    if verdict != Abandon && Owns(s.table, id, owner) {
      assert RowOk(s.table[id]);
      BalancedAfterVerdict(s.past.accounts, s.table, id, verdict, s.now, nextRetryAt);
      assert AccountWriteBack(s.past.accounts, id, verdict == Retry).Keys == s.past.accounts.Keys;
    }
  }

  lemma BalancedAfterVerdict(accounts: map<MessageId, Account>, t: Table, id: MessageId, verdict: Verdict, now: Instant,
                             nextRetryAt: Instant)
    requires AllBalanced(accounts, t) && verdict != Abandon
    requires id in accounts && id in t && t[id].status == Processing
    ensures AllBalanced(AccountWriteBack(accounts, id, verdict == Retry),
                        t[id := RowAfter(t[id], verdict, now, nextRetryAt)])
  {
    RowAfterShape(t[id], verdict, now, nextRetryAt);
    AllBalancedWriteBack(accounts, t, id, RowAfter(t[id], verdict, now, nextRetryAt), verdict == Retry);
  }
}
