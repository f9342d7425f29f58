// The invariants over whole runs, and what a reader may conclude about any reachable state.

module Reachability {
  import opened OutboxTypes
  import opened MessageTable
  import opened AttemptTable
  import opened Protocol
  import opened Conservation
  import opened AttemptInvariant
  import opened Soundness
  import opened Leases

  ghost predicate Inv(c: Config, s: State) {
    TxInv(s) && RowInv(s) && AccountInv(s) && LogInv(c, s) && PostInv(s) && EvidenceInv(c, s)
  }

  lemma InvStep(c: Config, s: State, step: Step)
    requires Inv(c, s) && Enabled(c, s, step)
    ensures Inv(c, Apply(c, s, step))
  {
    TxStep(c, s, step);
    RowStep(c, s, step);
    AccountStep(c, s, step);
    LogStep(c, s, step);
    PostInvStep(c, s, step);
    EvidenceStep(c, s, step);
  }

  lemma {:induction false} InvRun(c: Config, s: State, steps: seq<Step>)
    requires Inv(c, s) && IsRun(c, s, steps)
    ensures Inv(c, End(c, s, steps))
    decreases |steps|
  {
    if steps != [] {
      InvStep(c, s, steps[0]);
      InvRun(c, Apply(c, s, steps[0]), steps[1..]);
    }
  }

  // ---- Every run --------------------------------------------------------------------------

  // The stored attempt numbers of a pair are 1..COUNT(*) without gap or repeat, within
  // MaxRetries + 1; a Success is unique and comes last.
  lemma AttemptLogTheorem(c: Config, steps: seq<Step>, m: MessageId, sub: SubscriptionId)
    requires IsRun(c, INIT, steps)
    ensures var log := End(c, INIT, steps).log;
            && (forall n: nat :: DeliveryId(m, sub, n) in log <==> 1 <= n <= Count(log, m, sub))
            && (Count(log, m, sub) == 0 || Count(log, m, sub) <= c.maxRetries(sub) + 1)
            && (forall n: nat :: DeliveryId(m, sub, n) in log && log[DeliveryId(m, sub, n)] == Success
                  ==> n == Count(log, m, sub))
  {
    InvRun(c, INIT, steps);
    var log := End(c, INIT, steps).log;
    ExactNumbering(log, m, sub);
    LogIsBounded(c, log, m, sub);
    forall n: nat | DeliveryId(m, sub, n) in log && log[DeliveryId(m, sub, n)] == Success
      ensures n == Count(log, m, sub)
    {
      SuccessIsHighest(log, m, sub, n);
    }
  }

  // A pair that has a Success, or has used up its retries, keeps its rows as they are on
  // every continuation of every run, until its message is purged.
  lemma FrozenLogTheorem(c: Config, before: seq<Step>, after: seq<Step>, m: MessageId, sub: SubscriptionId)
    requires IsRun(c, INIT, before) && IsRun(c, End(c, INIT, before), after)
    requires var s := End(c, INIT, before); m in s.table && Closed(c, s.log, m, sub)
    ensures var s, s' := End(c, INIT, before), End(c, End(c, INIT, before), after);
            if m in s'.table then SamePair(s.log, s'.log, m, sub) else Count(s'.log, m, sub) == 0
  {
    InvRun(c, INIT, before);
    ClosedForever(c, End(c, INIT, before), after, m, sub);
  }

  // Delivered: the list the delivering pass used has, for each of its subscriptions, a stored
  // Success whose POST the receiver accepted.
  lemma DeliveredTheorem(c: Config, steps: seq<Step>, m: MessageId)
    requires IsRun(c, INIT, steps)
    requires m in End(c, INIT, steps).table && End(c, INIT, steps).table[m].status == Delivered
    ensures var s := End(c, INIT, steps);
            && m in s.past.deliveredBy
            && forall sub :: sub in s.past.deliveredBy[m] ==>
                 exists n: nat :: DeliveryId(m, sub, n) in s.log && s.log[DeliveryId(m, sub, n)] == Success
                                  && Accepted(s.past, DeliveryId(m, sub, n))
  {
    InvRun(c, INIT, steps);
    var s := End(c, INIT, steps);
    forall sub | sub in s.past.deliveredBy[m]
      ensures exists n: nat :: DeliveryId(m, sub, n) in s.log && s.log[DeliveryId(m, sub, n)] == Success
                               && Accepted(s.past, DeliveryId(m, sub, n))
    {
      assert HasSuccess(s.log, m, sub);
      HasSuccessIsTopRow(s.log, m, sub);
      assert Accepted(s.past, DeliveryId(m, sub, Count(s.log, m, sub)));
    }
  }

  // DeadLettered: either a subscription that has used its rows up without a Success, or a pass
  // that had no retry left at lock time and met a failed POST or an error of its own.
  lemma DeadLetteredTheorem(c: Config, steps: seq<Step>, m: MessageId)
    requires IsRun(c, INIT, steps)
    requires m in End(c, INIT, steps).table && End(c, INIT, steps).table[m].status == DeadLettered
    ensures var s := End(c, INIT, steps);
            m in s.past.deadBy && DeadEvidence(c, s.log, s.past, m, s.past.deadBy[m])
  {
    InvRun(c, INIT, steps);
  }

  // Committed messages are in the table or were purged when terminal; no POST is ever made for
  // a message that was rolled back.
  lemma ConservationTheorem(c: Config, steps: seq<Step>)
    requires IsRun(c, INIT, steps)
    ensures var s := End(c, INIT, steps);
            && s.past.committed == s.table.Keys + s.past.purged.Keys && s.table.Keys !! s.past.purged.Keys
            && (forall m :: m in s.past.purged ==> s.past.purged[m].Terminal())
            && (forall p :: p in s.past.accepted + s.past.failed ==>
                  p.1.messageId in s.past.committed && p.1.messageId !in s.past.rolledBack)
  {
    InvRun(c, INIT, steps);
  }

  // A row is Processing iff LockedBy is set iff LockedUntil is set, and its locks and retries
  // are accounted for.
  lemma AccountingTheorem(c: Config, steps: seq<Step>, m: MessageId)
    requires IsRun(c, INIT, steps) && m in End(c, INIT, steps).past.committed
    ensures var s := End(c, INIT, steps);
            && m in s.past.accounts && Balanced(s.past.accounts[m], s.table, m)
            && (m in s.table ==> RowOk(s.table[m]))
  {
    InvRun(c, INIT, steps);
  }

  // Terminal messages stay as they are on every continuation.
  lemma {:induction false} AbsorbingTheorem(c: Config, s: State, steps: seq<Step>, m: MessageId, row: Message)
    requires Inv(c, s) && IsRun(c, s, steps)
    requires row.Terminal() && Settled(s, m, row)
    ensures Settled(End(c, s, steps), m, row)
    decreases |steps|
  {
    if steps != [] {
      InvStep(c, s, steps[0]);
      TerminalStep(c, s, steps[0], m, row);
      AbsorbingTheorem(c, Apply(c, s, steps[0]), steps[1..], m, row);
    }
  }

  // ---- Runs under (H) -------------------------------------------------------------------

  ghost predicate ExclusiveInv(c: Config, s: State) {
    Inv(c, s) && LeaseInv(s) && BudgetInv(c, s) && DeadSnapshotInv(s)
  }

  lemma {:induction false} ExclusiveInvRun(c: Config, s: State, steps: seq<Step>)
    requires ExclusiveInv(c, s) && IsRun(c, s, steps) && ExclusiveRun(c, s, steps)
    ensures ExclusiveInv(c, End(c, s, steps))
    decreases |steps|
  {
    if steps != [] {
      InvStep(c, s, steps[0]);
      LeaseStep(c, s, steps[0]);
      BudgetStep(c, s, steps[0]);
      DeadSnapshotStep(c, s, steps[0]);
      ExclusiveInvRun(c, Apply(c, s, steps[0]), steps[1..]);
    }
  }

  lemma MutualExclusionTheorem(c: Config, steps: seq<Step>, v: WorkerId, w: WorkerId)
    requires IsRun(c, INIT, steps) && ExclusiveRun(c, INIT, steps)
    requires var s := End(c, INIT, steps);
             && v in s.workers && w in s.workers && s.workers[v].messageId == s.workers[w].messageId
             && s.workers[v].leaseEnd >= s.now && s.workers[w].leaseEnd >= s.now
    ensures v == w
    ensures var s := End(c, INIT, steps);
            var k := s.workers[w];
            && k.messageId in s.table
            && s.table[k.messageId].lockedBy == Some(k.instance)
            && s.table[k.messageId].lockedUntil == Some(k.leaseEnd)
            && s.table[k.messageId].retryCount == k.retrySnapshot
  {
    ExclusiveInvRun(c, INIT, steps);
    var s := End(c, INIT, steps);
    MutualExclusion(s, v, w);
    assert HoldsLease(s.table, s.now, s.workers[w]);
  }

  // RetryCount keeps within the policy's limit, and a message whose locks never expired is
  // finished after at most Budget + 1 of them.
  lemma RetryBudgetTheorem(c: Config, steps: seq<Step>, m: MessageId)
    requires IsRun(c, INIT, steps) && ExclusiveRun(c, INIT, steps)
    requires m in End(c, INIT, steps).past.committed
    ensures var s := End(c, INIT, steps);
            && m in s.past.accounts
            && (m in s.table ==> s.table[m].retryCount <= Budget(c))
            && s.past.accounts[m].writeBacks <= Budget(c) + 1
            && (s.past.accounts[m].writeBacks == Budget(c) + 1 ==> m !in s.table || s.table[m].Terminal())
    ensures var s := End(c, INIT, steps);
            s.past.accounts[m].released == 0 && s.past.accounts[m].takenOver == 0 ==>
              && s.past.accounts[m].acquired <= Budget(c) + 1
              && (s.past.accounts[m].acquired == Budget(c) + 1 ==>
                    m !in s.table || s.table[m].Terminal() || s.table[m].status == Processing)
  {
    ExclusiveInvRun(c, INIT, steps);
    var s := End(c, INIT, steps);
    PassesAreBounded(c, s, m);
    if s.past.accounts[m].released == 0 && s.past.accounts[m].takenOver == 0 {
      UninterruptedPassesFinish(c, s, m);
    }
  }

  // A message dead-lettered by a pass that had no retry left has spent exactly its budget.
  lemma BudgetSpentTheorem(c: Config, steps: seq<Step>, m: MessageId)
    requires IsRun(c, INIT, steps) && ExclusiveRun(c, INIT, steps)
    requires var s := End(c, INIT, steps);
             m in s.table && s.table[m].status == DeadLettered && m in s.past.deadBy && s.past.deadBy[m].BudgetSpent?
    ensures var s := End(c, INIT, steps);
            s.table[m].retryCount == s.past.deadBy[m].snapshot == Budget(c)
  {
    ExclusiveInvRun(c, INIT, steps);
    var s := End(c, INIT, steps);
    assert Evidenced(c, s, m);
    PassesAreBounded(c, s, m);
  }
}
