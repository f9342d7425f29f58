// Delivered and DeadLettered mean what they say, on every run: each carries evidence that
// survives stale passes, lost locks, refused and ambiguous saves.

module Soundness {
  import opened OutboxTypes
  import opened MessageTable
  import opened AttemptTable
  import opened Delivery
  import opened Protocol
  import opened Conservation
  import opened AttemptInvariant

  // ---- Evidence -------------------------------------------------------------------------

  // Every subscription of the list has a stored Success, and its receiver accepted that POST.
  ghost predicate DeliveredTo(log: AttemptLog, m: MessageId, subs: seq<SubscriptionId>) {
    forall sub :: sub in subs ==> HasSuccess(log, m, sub)
  }

  ghost predicate DeadEvidence(c: Config, log: AttemptLog, past: History, m: MessageId, cause: DeadCause) {
    match cause
    case SubscriptionExhausted(sub) =>
      Count(log, m, sub) > c.maxRetries(sub) && !HasSuccess(log, m, sub)
    case BudgetSpent(w, snapshot, failure) =>
      && snapshot >= c.retryLimit
      && w in past.lockedAs && past.lockedAs[w] == LockRecord(m, snapshot)
      && match failure
         case PostFailed(id) => id.messageId == m && (w, id) in past.failed
         case Threw => w in past.faults
  }

  // Some pass's POST under this id was accepted by its receiver.
  ghost predicate Accepted(past: History, id: DeliveryId) {
    exists w :: (w, id) in past.accepted
  }

  // What the passes in flight report about their POSTs is what happened.
  ghost predicate PostsTrue(past: History, w: WorkerId, k: Worker) {
    && w in past.lockedAs && past.lockedAs[w] == LockRecord(k.messageId, k.retrySnapshot)
    && match k.phase
    case Delivering(_, states, results) => ResultsTrue(past, w, k.messageId, states, results)
    case Deciding(_, states, results, _) => ResultsTrue(past, w, k.messageId, states, results)
    case Failing(_) => w in past.faults
    case _ => true
  }

  ghost predicate ResultsTrue(past: History, w: WorkerId, m: MessageId, states: StateMap, results: ResultMap) {
    forall sub :: sub in results ==>
      (w, NextId(m, states, sub)) in if results[sub] == Success then past.accepted else past.failed
  }

  ghost predicate PostInv(s: State) {
    && (forall id :: id in s.log && s.log[id] == Success ==> Accepted(s.past, id))
    && (forall w :: w in s.workers ==> PostsTrue(s.past, w, s.workers[w]))
  }

  ghost predicate Evidenced(c: Config, s: State, m: MessageId)
    requires m in s.table
  {
    && (s.table[m].status == Delivered ==> m in s.past.deliveredBy && DeliveredTo(s.log, m, s.past.deliveredBy[m]))
    && (s.table[m].status == DeadLettered ==> m in s.past.deadBy && DeadEvidence(c, s.log, s.past, m, s.past.deadBy[m]))
  }

  ghost predicate EvidenceInv(c: Config, s: State) {
    forall m :: m in s.table && s.table[m].Terminal() ==> Evidenced(c, s, m)
  }

  // ---- POST history ---------------------------------------------------------------------

  lemma PostInvStep(c: Config, s: State, step: Step)
    requires PostInv(s) && Enabled(c, s, step)
    ensures PostInv(Apply(c, s, step))
  {
    match step
    case WriteBack(w, nextRetryAt) => PostWriteBackStep(c, s, w, nextRetryAt);
    case ColdLock(instance, o, skip, passes) => PostColdLockStep(c, s, instance, o, skip, passes);
    case Save(w, outcome) => PostSave(c, s, w, outcome);
    case Post(w, sub, acceptedByReceiver, result) => PostPost(c, s, w, sub, acceptedByReceiver, result);
    case _ => PostOther(c, s, step);
  }

  lemma PostWriteBackStep(c: Config, s: State, w: WorkerId, nextRetryAt: Instant)
    requires PostInv(s) && Enabled(c, s, WriteBack(w, nextRetryAt))
    ensures PostInv(Apply(c, s, WriteBack(w, nextRetryAt)))
  {
    PostVerdict(s, w, VerdictOf(c, s.workers[w]), CauseOf(c, w, s.workers[w]), nextRetryAt);
  }

  lemma PostColdLockStep(c: Config, s: State, instance: InstanceId, o: LockOptions, skip: set<MessageId>,
                         passes: map<WorkerId, MessageId>)
    requires PostInv(s) && Enabled(c, s, ColdLock(instance, o, skip, passes))
    ensures PostInv(Apply(c, s, ColdLock(instance, o, skip, passes)))
  {
    ColdLockTakes(c, s, instance, o, skip, passes);
    PostColdLock(s, instance, o.visibility, passes);
  }

  lemma PostVerdict(s: State, w: WorkerId, verdict: Verdict, cause: DeadCause, nextRetryAt: Instant)
    requires PostInv(s) && ReadyToWriteBack(s, w)
    ensures PostInv(ApplyVerdict(s, w, verdict, cause, nextRetryAt))
  {
  }

  lemma PostColdLock(s: State, instance: InstanceId, visibility: int, passes: map<WorkerId, MessageId>)
    requires PostInv(s)
    requires forall w :: w in passes ==> passes[w] in s.table
    ensures PostInv(ApplyColdLock(s, instance, visibility, passes))
  {
    var s' := ApplyColdLock(s, instance, visibility, passes);
    forall v | v in s'.workers ensures PostsTrue(s'.past, v, s'.workers[v]) {
      assert v !in passes ==> PostsTrue(s.past, v, s.workers[v]);
    }
  }

  lemma PostSave(c: Config, s: State, w: WorkerId, outcome: SaveResult)
    requires PostInv(s) && Enabled(c, s, Save(w, outcome))
    ensures PostInv(Apply(c, s, Save(w, outcome)))
  {
    PostSaved(s, w, outcome);
  }

  lemma PostSaved(s: State, w: WorkerId, outcome: SaveResult)
    requires PostInv(s) && InDelivery(s, w)
    ensures PostInv(ApplySave(s, w, outcome))
  {
    var s' := ApplySave(s, w, outcome);
    assert PostsTrue(s.past, w, s.workers[w]);
    SavedRowsAccepted(s.past, w, s.workers[w]);
    forall id | id in s'.log && s'.log[id] == Success ensures Accepted(s.past, id) {
      assert id in s.log || id in RowsToSave(s.workers[w]);
    }
    forall v | v in s'.workers ensures PostsTrue(s.past, v, s'.workers[v]) {
      assert PostsTrue(s.past, v, s.workers[v]);
    }
  }

  lemma SavedRowsAccepted(past: History, w: WorkerId, k: Worker)
    requires k.phase.Delivering? && PostsTrue(past, w, k)
    ensures forall id :: id in RowsToSave(k) && RowsToSave(k)[id] == Success ==> Accepted(past, id)
  {
    forall id | id in RowsToSave(k) && RowsToSave(k)[id] == Success ensures Accepted(past, id) {
      assert id == NextId(k.messageId, k.phase.states, id.subscriptionId);
      assert (w, id) in past.accepted;
    }
  }

  lemma PostPost(c: Config, s: State, w: WorkerId, sub: SubscriptionId, acceptedByReceiver: bool, result: AttemptStatus)
    requires PostInv(s) && Enabled(c, s, Post(w, sub, acceptedByReceiver, result))
    ensures PostInv(Apply(c, s, Post(w, sub, acceptedByReceiver, result)))
  {
    var s' := ApplyPost(s, w, sub, acceptedByReceiver, result);
    assert s.past.accepted <= s'.past.accepted && s.past.failed <= s'.past.failed && s.past.faults == s'.past.faults;
    forall v | v in s'.workers ensures PostsTrue(s'.past, v, s'.workers[v]) {
      assert PostsTrue(s.past, v, s.workers[v]);
    }
  }

  lemma PostOther(c: Config, s: State, step: Step)
    requires PostInv(s) && Enabled(c, s, step)
    requires !step.ColdLock? && !step.Post? && !step.WriteBack? && !step.Save?
    ensures PostInv(Apply(c, s, step))
  {
  }

  // ---- Evidence survives ------------------------------------------------------------------

  // A stored Success is never lost while its message exists.
  lemma SuccessKept(c: Config, s: State, step: Step, m: MessageId, sub: SubscriptionId)
    requires TxInv(s) && LogInv(c, s) && Enabled(c, s, step)
    requires m in Apply(c, s, step).table && HasSuccess(s.log, m, sub)
    ensures HasSuccess(Apply(c, s, step).log, m, sub)
  {
    PairStep(c, s, step, m, sub);
    SamePairSameGroup(c, s.log, Apply(c, s, step).log, m, sub);
  }

  lemma ExhaustionKept(c: Config, s: State, step: Step, m: MessageId, sub: SubscriptionId)
    requires TxInv(s) && LogInv(c, s) && Enabled(c, s, step)
    requires m in Apply(c, s, step).table && DeadEvidence(c, s.log, s.past, m, SubscriptionExhausted(sub))
    ensures DeadEvidence(c, Apply(c, s, step).log, Apply(c, s, step).past, m, SubscriptionExhausted(sub))
  {
    PairStep(c, s, step, m, sub);
    SamePairSameGroup(c, s.log, Apply(c, s, step).log, m, sub);
  }

  lemma HistoryGrows(c: Config, s: State, step: Step)
    requires Enabled(c, s, step)
    ensures s.past.failed <= Apply(c, s, step).past.failed && s.past.faults <= Apply(c, s, step).past.faults
  {
  }

  lemma EvidenceKept(c: Config, s: State, step: Step, m: MessageId)
    requires TxInv(s) && LogInv(c, s) && Enabled(c, s, step)
    requires m in Apply(c, s, step).table
    ensures forall subs :: DeliveredTo(s.log, m, subs) ==> DeliveredTo(Apply(c, s, step).log, m, subs)
    ensures forall cause :: DeadEvidence(c, s.log, s.past, m, cause) ==>
          DeadEvidence(c, Apply(c, s, step).log, Apply(c, s, step).past, m, cause)
  {
    var s' := Apply(c, s, step);
    forall sub | HasSuccess(s.log, m, sub) ensures HasSuccess(s'.log, m, sub) {
      SuccessKept(c, s, step, m, sub);
    }
    HistoryGrows(c, s, step);
    forall cause | DeadEvidence(c, s.log, s.past, m, cause) ensures DeadEvidence(c, s'.log, s'.past, m, cause) {
      match cause
      case SubscriptionExhausted(sub) => ExhaustionKept(c, s, step, m, sub);
      case _ =>
    }
  }

  // ---- Evidence is produced ---------------------------------------------------------------

  // The decision to deliver is taken only when every subscription of the list has a stored
  // Success: an old one, or a new one whose save was reported as done.
  lemma DeliverIsJustified(c: Config, s: State, w: WorkerId)
    requires LogInv(c, s) && ReadyToWriteBack(s, w) && s.workers[w].messageId in s.table
    requires VerdictOf(c, s.workers[w]) == Deliver
    ensures DeliveredTo(s.log, s.workers[w].messageId, SubsOf(s.workers[w].phase))
  {
    var k := s.workers[w];
    if k.phase.Deciding? {
      var m, states, results := k.messageId, k.phase.states, k.phase.results;
      assert PassView(c, s.log, k);
      DecisionMeaning(c, k.phase.subs, states, results, k.phase.saved, k.retrySnapshot);
      forall sub | sub in k.phase.subs ensures HasSuccess(s.log, m, sub) {
        assert SlotOf(c, states, results, sub) == Succeeded;
        if AlreadyDelivered(states, sub) {
          assert s.log[DeliveryId(m, sub, states[sub].attemptCount)] == Success;
        } else {
          assert s.log[NextId(m, states, sub)] == Success;
        }
      }
    }
  }

  // A subscription a pass finds exhausted has used up its rows for good.
  lemma ExhaustedStays(c: Config, log: AttemptLog, m: MessageId, states: StateMap, sub: SubscriptionId)
    requires LogOk(c, log) && Seen(log, m, states) && OutOfRetries(c, states, sub)
    ensures Count(log, m, sub) > c.maxRetries(sub) && !HasSuccess(log, m, sub)
  {
    ExactNumbering(log, m, sub);
    LogIsBounded(c, log, m, sub);
    HasSuccessIsTopRow(log, m, sub);
    assert sub in states ==> DeliveryId(m, sub, states[sub].attemptCount) in log;
  }

  lemma DeadLetterIsJustified(c: Config, s: State, w: WorkerId)
    requires LogInv(c, s) && PostInv(s) && ReadyToWriteBack(s, w) && s.workers[w].messageId in s.table
    requires VerdictOf(c, s.workers[w]) == DeadLetter
    ensures DeadEvidence(c, s.log, s.past, s.workers[w].messageId, CauseOf(c, w, s.workers[w]))
  {
    var k := s.workers[w];
    assert PostsTrue(s.past, w, k) && PassView(c, s.log, k);
    if k.phase.Deciding? {
      var m, subs, states, results := k.messageId, k.phase.subs, k.phase.states, k.phase.results;
      DecisionMeaning(c, subs, states, results, k.phase.saved, k.retrySnapshot);
      match CauseOf(c, w, k)
      case SubscriptionExhausted(sub) =>
        assert SlotOf(c, states, results, sub) == Exhausted;
        ExhaustedStays(c, s.log, m, states, sub);
      case BudgetSpent(_, _, PostFailed(id)) =>
        var sub := id.subscriptionId;
        assert SlotOf(c, states, results, sub) == FailedNow;
        assert NeedsPost(c, states, sub) && sub in subs;
      case BudgetSpent(_, _, Threw) =>
    }
  }

  // ---- Evidence is always there -----------------------------------------------------------

  lemma EvidenceStep(c: Config, s: State, step: Step)
    requires TxInv(s) && RowInv(s) && LogInv(c, s) && PostInv(s) && EvidenceInv(c, s) && Enabled(c, s, step)
    ensures EvidenceInv(c, Apply(c, s, step))
  {
    var s' := Apply(c, s, step);
    forall m | m in s'.table && s'.table[m].Terminal() ensures Evidenced(c, s', m) {
      EvidenceKept(c, s, step, m);
      TerminalOrigin(c, s, step, m);
      if !KeptTerminal(s, s', m) {
        if s'.table[m].status == Delivered {
          DeliverIsJustified(c, s, step.w);
        } else {
          DeadLetterIsJustified(c, s, step.w);
        }
      }
    }
  }

  // The row was terminal before, and its record is the same.
  ghost predicate KeptTerminal(s: State, s': State, m: MessageId) {
    && m in s.table && s.table[m].Terminal() && m in s'.table && s'.table[m] == s.table[m]
    && (m in s.past.deliveredBy ==> m in s'.past.deliveredBy && s'.past.deliveredBy[m] == s.past.deliveredBy[m])
    && (m in s.past.deadBy ==> m in s'.past.deadBy && s'.past.deadBy[m] == s.past.deadBy[m])
  }

  // The write-back of pass w made the row terminal, and recorded why.
  ghost predicate MadeTerminal(s: State, s': State, m: MessageId, w: WorkerId, verdict: Verdict, cause: DeadCause) {
    && w in s.workers && s.workers[w].messageId == m && m in s.table && m in s'.table
    && Owns(s.table, m, s.workers[w].instance) && s'.table[m].retryCount == s.table[m].retryCount
    && (if s'.table[m].status == Delivered
        then verdict == Deliver && m in s'.past.deliveredBy && s'.past.deliveredBy[m] == SubsOf(s.workers[w].phase)
        else verdict == DeadLetter && m in s'.past.deadBy && s'.past.deadBy[m] == cause)
  }

  lemma TerminalOrigin(c: Config, s: State, step: Step, m: MessageId)
    requires TxInv(s) && RowInv(s) && Enabled(c, s, step)
    requires m in Apply(c, s, step).table && Apply(c, s, step).table[m].Terminal()
    ensures KeptTerminal(s, Apply(c, s, step), m)
            || (step.WriteBack? && ReadyToWriteBack(s, step.w)
                && var k := s.workers[step.w];
                   MadeTerminal(s, Apply(c, s, step), m, step.w, VerdictOf(c, k), CauseOf(c, step.w, k)))
  {
    if PassStep(step) {
      PassStepFrame(c, s, step);
    } else {
      match step
      case WriteBack(w, nextRetryAt) => WriteBackOrigin(c, s, w, nextRetryAt, m);
      case _ => NoNewTerminal(c, s, step, m);
    }
  }

  lemma NoNewTerminal(c: Config, s: State, step: Step, m: MessageId)
    requires TxInv(s) && RowInv(s) && Enabled(c, s, step) && !PassStep(step) && !step.WriteBack?
    requires m in Apply(c, s, step).table && Apply(c, s, step).table[m].Terminal()
    ensures KeptTerminal(s, Apply(c, s, step), m)
  {
    match step
    case ColdLock(instance, o, skip, passes) =>
      ColdLockTakes(c, s, instance, o, skip, passes);
      LockedNotTerminal(s, instance, o.visibility, passes, m);
    case _ =>
  }

  lemma LockedNotTerminal(s: State, instance: InstanceId, visibility: int, passes: map<WorkerId, MessageId>,
                          m: MessageId)
    requires forall w :: w in passes ==> passes[w] in s.table
    requires var s' := ApplyColdLock(s, instance, visibility, passes); m in s'.table && s'.table[m].Terminal()
    ensures KeptTerminal(s, ApplyColdLock(s, instance, visibility, passes), m)
  {
  }

  lemma WriteBackOrigin(c: Config, s: State, w: WorkerId, nextRetryAt: Instant, m: MessageId)
    requires RowInv(s) && Enabled(c, s, WriteBack(w, nextRetryAt))
    requires m in Apply(c, s, WriteBack(w, nextRetryAt)).table
    requires Apply(c, s, WriteBack(w, nextRetryAt)).table[m].Terminal()
    ensures var s' := Apply(c, s, WriteBack(w, nextRetryAt));
            KeptTerminal(s, s', m) || MadeTerminal(s, s', m, w, VerdictOf(c, s.workers[w]), CauseOf(c, w, s.workers[w]))
  {
    VerdictOrigin(s, w, VerdictOf(c, s.workers[w]), CauseOf(c, w, s.workers[w]), nextRetryAt, m);
  }

  lemma VerdictOrigin(s: State, w: WorkerId, verdict: Verdict, cause: DeadCause, nextRetryAt: Instant, m: MessageId)
    requires RowInv(s) && ReadyToWriteBack(s, w)
    requires m in ApplyVerdict(s, w, verdict, cause, nextRetryAt).table
    requires ApplyVerdict(s, w, verdict, cause, nextRetryAt).table[m].Terminal()
    ensures var s' := ApplyVerdict(s, w, verdict, cause, nextRetryAt);
            KeptTerminal(s, s', m) || MadeTerminal(s, s', m, w, verdict, cause)
  {
    assert RowOk(s.table[m]);
  }
}
