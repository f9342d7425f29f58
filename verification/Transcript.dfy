// The recorded history is a faithful transcript: what the theorems read off it is exactly what
// the steps of the run did.

module Transcript {
  import opened OutboxTypes
  import opened MessageTable
  import opened Delivery
  import opened Protocol
  import opened Conservation
  import opened Soundness
  import opened Reachability

  // ---- POSTs and faults -----------------------------------------------------------------------

  // Step i is a POST by pass w, and id is derived from its message, its subscription and the
  // number after the count the pass read.
  ghost predicate PostsAt(c: Config, s: State, steps: seq<Step>, i: nat, w: WorkerId, id: DeliveryId) {
    && i < |steps| && steps[i].Post? && steps[i].w == w && IsRun(c, s, steps[..i])
    && var k := End(c, s, steps[..i]).workers;
       && w in k && k[w].phase.Delivering?
       && steps[i].subscription == id.subscriptionId && k[w].messageId == id.messageId
       && id.number == 1 + if id.subscriptionId in k[w].phase.states
                           then k[w].phase.states[id.subscriptionId].attemptCount else 0
  }

  ghost predicate FaultAt(steps: seq<Step>, i: nat, w: WorkerId) {
    i < |steps| && (steps[i].FailReading? || steps[i].ThrowInDelivery?) && steps[i].w == w
  }

  lemma RecordStep(c: Config, s: State, step: Step, w: WorkerId, id: DeliveryId)
    requires Enabled(c, s, step)
    ensures var past, past' := s.past, Apply(c, s, step).past;
            var posts := step.Post? && step.w == w && NextId(s.workers[w].messageId, s.workers[w].phase.states,
                                                             step.subscription) == id;
            && ((w, id) in past'.accepted <==> (w, id) in past.accepted || (posts && step.acceptedByReceiver))
            && ((w, id) in past'.failed <==> (w, id) in past.failed || (posts && step.result == Failure))
  {
    if PassStep(step) {
      PassStepPast(c, s, step);
    }
  }

  lemma FaultStep(c: Config, s: State, step: Step, w: WorkerId)
    requires Enabled(c, s, step)
    ensures w in Apply(c, s, step).past.faults <==> w in s.past.faults || FaultAt([step], 0, w)
  {
  }

  lemma PostsAtFirst(c: Config, s: State, steps: seq<Step>, w: WorkerId, id: DeliveryId)
    requires steps != [] && Enabled(c, s, steps[0])
    ensures PostsAt(c, s, steps, 0, w, id) <==>
            steps[0].Post? && steps[0].w == w
            && NextId(s.workers[w].messageId, s.workers[w].phase.states, steps[0].subscription) == id
  {
    assert steps[..0] == [];
  }

  lemma PostsAtLater(c: Config, s: State, steps: seq<Step>, i: nat, w: WorkerId, id: DeliveryId)
    requires steps != [] && Enabled(c, s, steps[0]) && i + 1 < |steps|
    ensures PostsAt(c, s, steps, i + 1, w, id) <==> PostsAt(c, Apply(c, s, steps[0]), steps[1..], i, w, id)
  {
    var prefix := steps[..i + 1];
    assert prefix[0] == steps[0] && prefix[1..] == steps[1..][..i] && steps[1..][i] == steps[i + 1];
  }

  lemma PostsAtSplit(c: Config, s: State, steps: seq<Step>, i: nat, w: WorkerId, id: DeliveryId)
    requires steps != [] && Enabled(c, s, steps[0]) && i < |steps|
    ensures PostsAt(c, s, steps, i, w, id) <==>
            if i == 0 then steps[0].Post? && steps[0].w == w
                           && NextId(s.workers[w].messageId, s.workers[w].phase.states, steps[0].subscription) == id
            else PostsAt(c, Apply(c, s, steps[0]), steps[1..], i - 1, w, id)
  {
    if i == 0 {
      PostsAtFirst(c, s, steps, w, id);
    } else {
      PostsAtLater(c, s, steps, i - 1, w, id);
    }
  }

  ghost predicate AcceptedIn(c: Config, s: State, steps: seq<Step>, w: WorkerId, id: DeliveryId) {
    exists i :: 0 <= i < |steps| && PostsAt(c, s, steps, i, w, id) && steps[i].acceptedByReceiver
  }

  ghost predicate FailedIn(c: Config, s: State, steps: seq<Step>, w: WorkerId, id: DeliveryId) {
    exists i :: 0 <= i < |steps| && PostsAt(c, s, steps, i, w, id) && steps[i].result == Failure
  }

  lemma PostedInSplit(c: Config, s: State, steps: seq<Step>, w: WorkerId, id: DeliveryId)
    requires steps != [] && Enabled(c, s, steps[0])
    ensures var posts := steps[0].Post? && steps[0].w == w
                         && NextId(s.workers[w].messageId, s.workers[w].phase.states, steps[0].subscription) == id;
            var s1 := Apply(c, s, steps[0]);
            && (AcceptedIn(c, s, steps, w, id) <==>
                (posts && steps[0].acceptedByReceiver) || AcceptedIn(c, s1, steps[1..], w, id))
            && (FailedIn(c, s, steps, w, id) <==>
                (posts && steps[0].result == Failure) || FailedIn(c, s1, steps[1..], w, id))
  {
    var s1 := Apply(c, s, steps[0]);
    forall i | 0 <= i < |steps|
      ensures PostsAt(c, s, steps, i, w, id) <==>
              if i == 0 then steps[0].Post? && steps[0].w == w
                             && NextId(s.workers[w].messageId, s.workers[w].phase.states, steps[0].subscription) == id
              else PostsAt(c, s1, steps[1..], i - 1, w, id)
    {
      PostsAtSplit(c, s, steps, i, w, id);
    }
    forall i | 0 <= i < |steps[1..]|
      ensures PostsAt(c, s1, steps[1..], i, w, id) <==> PostsAt(c, s, steps, i + 1, w, id)
    {
      PostsAtLater(c, s, steps, i, w, id);
    }
  }

  lemma {:induction false} RecordRun(c: Config, s: State, steps: seq<Step>, w: WorkerId, id: DeliveryId)
    requires IsRun(c, s, steps)
    ensures var past := End(c, s, steps).past;
            && ((w, id) in past.accepted <==> (w, id) in s.past.accepted || AcceptedIn(c, s, steps, w, id))
            && ((w, id) in past.failed <==> (w, id) in s.past.failed || FailedIn(c, s, steps, w, id))
    decreases |steps|
  {
    if steps != [] {
      RecordStep(c, s, steps[0], w, id);
      PostedInSplit(c, s, steps, w, id);
      RecordRun(c, Apply(c, s, steps[0]), steps[1..], w, id);
    }
  }

  // A POST is on record as accepted or failed exactly when some step of the run made it, under the
  // number after the count its pass had read, with that outcome.
  lemma PostsOnRecord(c: Config, steps: seq<Step>, w: WorkerId, id: DeliveryId)
    requires IsRun(c, INIT, steps)
    ensures (w, id) in End(c, INIT, steps).past.accepted <==>
            exists i :: 0 <= i < |steps| && PostsAt(c, INIT, steps, i, w, id) && steps[i].acceptedByReceiver
    ensures (w, id) in End(c, INIT, steps).past.failed <==>
            exists i :: 0 <= i < |steps| && PostsAt(c, INIT, steps, i, w, id) && steps[i].result == Failure
  {
    RecordRun(c, INIT, steps, w, id);
  }

  lemma {:induction false} FaultsRun(c: Config, s: State, steps: seq<Step>, w: WorkerId)
    requires IsRun(c, s, steps)
    ensures w in End(c, s, steps).past.faults
            <==> w in s.past.faults || exists i :: 0 <= i < |steps| && FaultAt(steps, i, w)
    decreases |steps|
  {
    if steps != [] {
      var rest := steps[1..];
      FaultStep(c, s, steps[0], w);
      FaultsRun(c, Apply(c, s, steps[0]), rest, w);
      assert FaultAt(steps, 0, w) <==> FaultAt([steps[0]], 0, w);
      forall i | 0 <= i < |rest| ensures FaultAt(rest, i, w) <==> FaultAt(steps, i + 1, w) {
      }
      forall i | 0 <= i < |steps| && FaultAt(steps, i, w) ensures i == 0 || FaultAt(rest, i - 1, w) {
      }
    }
  }

  // A pass is on record with a fault exactly when it met one.
  lemma FaultsOnRecord(c: Config, steps: seq<Step>, w: WorkerId)
    requires IsRun(c, INIT, steps)
    ensures w in End(c, INIT, steps).past.faults <==> exists i :: 0 <= i < |steps| && FaultAt(steps, i, w)
  {
    FaultsRun(c, INIT, steps, w);
  }

  // ---- The list a message was delivered to ------------------------------------------------------

  ghost predicate WorksOn(s: State, w: WorkerId, m: MessageId, subs: seq<SubscriptionId>) {
    && w in s.workers && s.workers[w].messageId == m
    && !s.workers[w].phase.Locked? && !s.workers[w].phase.Failing? && s.workers[w].phase.subs == subs
  }

  // Step i gives the list to a pass over the message.
  ghost predicate RoutesAt(c: Config, s: State, steps: seq<Step>, i: nat, m: MessageId, subs: seq<SubscriptionId>) {
    && i < |steps| && steps[i].Route? && steps[i].subs == subs && IsRun(c, s, steps[..i])
    && var k := End(c, s, steps[..i]).workers; steps[i].w in k && k[steps[i].w].messageId == m
  }

  ghost predicate HasSource(c: Config, s: State, steps: seq<Step>, m: MessageId, subs: seq<SubscriptionId>) {
    || (exists w :: WorksOn(s, w, m, subs))
    || (exists i :: 0 <= i < |steps| && RoutesAt(c, s, steps, i, m, subs))
  }

  ghost predicate DeliveredAs(s: State, m: MessageId, subs: seq<SubscriptionId>) {
    m in s.table && s.table[m].status == Delivered && m in s.past.deliveredBy && s.past.deliveredBy[m] == subs
  }

  lemma WorksOnStep(c: Config, s: State, step: Step, w: WorkerId, m: MessageId, subs: seq<SubscriptionId>)
    requires Enabled(c, s, step) && WorksOn(Apply(c, s, step), w, m, subs)
    ensures WorksOn(s, w, m, subs) || (step.Route? && step.w == w && step.subs == subs && s.workers[w].messageId == m)
  {
    match step
    case ColdLock(instance, o, skip, passes) => ColdLockTakes(c, s, instance, o, skip, passes);
    case WriteBack(_, _) => assert w in s.workers && Apply(c, s, step).workers[w] == s.workers[w];
    case _ => WorksOnOther(c, s, step, w, m, subs);
  }

  lemma WorksOnOther(c: Config, s: State, step: Step, w: WorkerId, m: MessageId, subs: seq<SubscriptionId>)
    requires Enabled(c, s, step) && !step.ColdLock? && !step.WriteBack? && WorksOn(Apply(c, s, step), w, m, subs)
    ensures WorksOn(s, w, m, subs) || (step.Route? && step.w == w && step.subs == subs && s.workers[w].messageId == m)
  {
  }

  lemma DeliveredAsStep(c: Config, s: State, step: Step, m: MessageId, subs: seq<SubscriptionId>)
    requires TxInv(s) && RowInv(s) && EvidenceInv(c, s)
    requires Enabled(c, s, step) && DeliveredAs(Apply(c, s, step), m, subs)
    ensures DeliveredAs(s, m, subs) || exists w :: WorksOn(s, w, m, subs)
  {
    TerminalOrigin(c, s, step, m);
    if KeptTerminal(s, Apply(c, s, step), m) {
      assert Evidenced(c, s, m);
    } else {
      DeliversItsList(c, s, step.w);
    }
  }

  lemma DeliversItsList(c: Config, s: State, w: WorkerId)
    requires ReadyToWriteBack(s, w) && VerdictOf(c, s.workers[w]) == Deliver
    ensures WorksOn(s, w, s.workers[w].messageId, SubsOf(s.workers[w].phase))
  {
  }

  lemma RoutesAtFirst(c: Config, s: State, steps: seq<Step>, m: MessageId)
    requires steps != [] && Enabled(c, s, steps[0]) && steps[0].Route? && s.workers[steps[0].w].messageId == m
    ensures RoutesAt(c, s, steps, 0, m, steps[0].subs)
  {
    assert steps[..0] == [];
  }

  lemma RoutesAtLater(c: Config, s: State, steps: seq<Step>, i: nat, m: MessageId, subs: seq<SubscriptionId>)
    requires steps != [] && Enabled(c, s, steps[0]) && RoutesAt(c, Apply(c, s, steps[0]), steps[1..], i, m, subs)
    ensures RoutesAt(c, s, steps, i + 1, m, subs)
  {
    var prefix := steps[..i + 1];
    assert prefix[0] == steps[0] && prefix[1..] == steps[1..][..i];
  }

  lemma SourceStep(c: Config, s: State, steps: seq<Step>, m: MessageId, subs: seq<SubscriptionId>)
    requires steps != [] && Enabled(c, s, steps[0]) && HasSource(c, Apply(c, s, steps[0]), steps[1..], m, subs)
    ensures HasSource(c, s, steps, m, subs)
  {
    var s1 := Apply(c, s, steps[0]);
    if w :| WorksOn(s1, w, m, subs) {
      WorksOnStep(c, s, steps[0], w, m, subs);
      if !WorksOn(s, w, m, subs) {
        RoutesAtFirst(c, s, steps, m);
      }
    } else {
      var i :| 0 <= i < |steps[1..]| && RoutesAt(c, s1, steps[1..], i, m, subs);
      RoutesAtLater(c, s, steps, i, m, subs);
    }
  }

  lemma {:induction false} SourceRun(c: Config, s: State, steps: seq<Step>, m: MessageId, subs: seq<SubscriptionId>)
    requires Inv(c, s) && IsRun(c, s, steps) && DeliveredAs(End(c, s, steps), m, subs)
    ensures DeliveredAs(s, m, subs) || HasSource(c, s, steps, m, subs)
    decreases |steps|
  {
    if steps != [] {
      var s1 := Apply(c, s, steps[0]);
      InvStep(c, s, steps[0]);
      SourceRun(c, s1, steps[1..], m, subs);
      if HasSource(c, s1, steps[1..], m, subs) {
        SourceStep(c, s, steps, m, subs);
      } else {
        DeliveredAsStep(c, s, steps[0], m, subs);
      }
    }
  }

  // The list a Delivered row is on record with is one that routing gave to a pass over it.
  lemma ListWasRouted(c: Config, steps: seq<Step>, m: MessageId) returns (i: nat)
    requires IsRun(c, INIT, steps)
    requires m in End(c, INIT, steps).table && End(c, INIT, steps).table[m].status == Delivered
    ensures m in End(c, INIT, steps).past.deliveredBy
    ensures RoutesAt(c, INIT, steps, i, m, End(c, INIT, steps).past.deliveredBy[m])
  {
    InvRun(c, INIT, steps);
    var s := End(c, INIT, steps);
    assert Evidenced(c, s, m);
    SourceRun(c, INIT, steps, m, s.past.deliveredBy[m]);
    i :| 0 <= i < |steps| && RoutesAt(c, INIT, steps, i, m, s.past.deliveredBy[m]);
  }

  // ---- Accounts ---------------------------------------------------------------------------------

  datatype Event = Locking | TakingOver | Releasing | WritingBack | Retrying

  predicate Locks(step: Step, m: MessageId) {
    (step.HotLock? && step.id == m) || (step.ColdLock? && m in step.passes.Values)
  }

  ghost predicate WritesBack(c: Config, s: State, step: Step, m: MessageId)
    requires Enabled(c, s, step) && m in s.table
  {
    && step.WriteBack? && s.workers[step.w].messageId == m
    && s.table[m].lockedBy == Some(s.workers[step.w].instance)
    && VerdictOf(c, s.workers[step.w]) != Abandon
  }

  // What a step does to one message: a lock, which takes it over if it was still Processing; a
  // release of its expired lock; a write-back its owner check lets through, which may be a retry.
  ghost predicate Happens(c: Config, s: State, step: Step, m: MessageId, event: Event)
    requires Enabled(c, s, step)
  {
    && m in s.table
    && match event
       case Locking => Locks(step, m)
       case TakingOver => Locks(step, m) && s.table[m].status == Processing
       case Releasing =>
         && step.Release? && s.table[m].status == Processing
         && s.table[m].lockedUntil.Some? && s.table[m].lockedUntil.value < s.now
       case WritingBack => WritesBack(c, s, step, m)
       case Retrying => WritesBack(c, s, step, m) && VerdictOf(c, s.workers[step.w]) == Retry
  }

  ghost function Occurrences(c: Config, s: State, steps: seq<Step>, m: MessageId, event: Event): nat
    requires IsRun(c, s, steps)
    decreases |steps|
  {
    if steps == [] then 0
    else
      (if Happens(c, s, steps[0], m, event) then 1 else 0)
      + Occurrences(c, Apply(c, s, steps[0]), steps[1..], m, event)
  }

  function EntryOf(accounts: map<MessageId, Account>, m: MessageId, event: Event): nat {
    if m !in accounts then 0
    else
      match event
      case Locking => accounts[m].acquired
      case TakingOver => accounts[m].takenOver
      case Releasing => accounts[m].released
      case WritingBack => accounts[m].writeBacks
      case Retrying => accounts[m].retries
  }

  // A message has an account from its commit on.
  ghost predicate Opened(s: State, m: MessageId) {
    && (m in s.table ==> m in s.past.accounts)
    && (m in s.open ==> m !in s.past.accounts)
  }

  ghost predicate Counted(c: Config, s: State, step: Step, m: MessageId, event: Event)
    requires Enabled(c, s, step)
  {
    EntryOf(Apply(c, s, step).past.accounts, m, event)
    == EntryOf(s.past.accounts, m, event) + if Happens(c, s, step, m, event) then 1 else 0
  }

  lemma CountedStep(c: Config, s: State, step: Step, m: MessageId, event: Event)
    requires Opened(s, m) && Enabled(c, s, step)
    ensures Counted(c, s, step, m, event)
  {
    match step
    case ColdLock(instance, o, skip, passes) => CountedColdLock(c, s, instance, o, skip, passes, m, event);
    case HotLock(_, _, id, _) => LocksCounted(s.past.accounts, s.table, {id}, m, event);
    case WriteBack(w, nextRetryAt) => CountedWriteBack(c, s, w, nextRetryAt, m, event);
    case Release => ReleasesCounted(s.past.accounts, s.table, s.now, m, event);
    case _ => NoneCounted(c, s, step, m, event);
  }

  lemma CountedColdLock(c: Config, s: State, instance: InstanceId, o: LockOptions, skip: set<MessageId>,
                        passes: map<WorkerId, MessageId>, m: MessageId, event: Event)
    requires Opened(s, m) && Enabled(c, s, ColdLock(instance, o, skip, passes))
    ensures Counted(c, s, ColdLock(instance, o, skip, passes), m, event)
  {
    LocksCounted(s.past.accounts, s.table, passes.Values, m, event);
    ColdLockAccounts(c, s, instance, o, skip, passes);
  }

  lemma ColdLockAccounts(c: Config, s: State, instance: InstanceId, o: LockOptions, skip: set<MessageId>,
                         passes: map<WorkerId, MessageId>)
    requires Enabled(c, s, ColdLock(instance, o, skip, passes))
    ensures Apply(c, s, ColdLock(instance, o, skip, passes)).past.accounts
         == AccountLocks(s.past.accounts, s.table, passes.Values)
  {
    ColdLockTakes(c, s, instance, o, skip, passes);
    assert Apply(c, s, ColdLock(instance, o, skip, passes)) == ApplyColdLock(s, instance, o.visibility, passes);
  }

  lemma CountedWriteBack(c: Config, s: State, w: WorkerId, nextRetryAt: Instant, m: MessageId, event: Event)
    requires Opened(s, m) && Enabled(c, s, WriteBack(w, nextRetryAt))
    ensures Counted(c, s, WriteBack(w, nextRetryAt), m, event)
  {
    VerdictCounted(s, w, VerdictOf(c, s.workers[w]), CauseOf(c, w, s.workers[w]), nextRetryAt, m, event);
  }

  lemma NoneCounted(c: Config, s: State, step: Step, m: MessageId, event: Event)
    requires Opened(s, m) && Enabled(c, s, step)
    requires !step.ColdLock? && !step.HotLock? && !step.WriteBack? && !step.Release?
    ensures Counted(c, s, step, m, event)
  {
    if PassStep(step) {
      PassStepPast(c, s, step);
    }
  }

  lemma LocksCounted(accounts: map<MessageId, Account>, t: Table, ids: set<MessageId>, m: MessageId, event: Event)
    requires m in t ==> m in accounts
    ensures EntryOf(AccountLocks(accounts, t, ids), m, event)
         == EntryOf(accounts, m, event)
            + if m in ids && m in t && (event == Locking || (event == TakingOver && t[m].status == Processing))
              then 1 else 0
  {
  }

  lemma ReleasesCounted(accounts: map<MessageId, Account>, t: Table, now: Instant, m: MessageId, event: Event)
    requires m in t ==> m in accounts
    ensures EntryOf(AccountReleases(accounts, t, now), m, event)
         == EntryOf(accounts, m, event) + if m in t && Expired(t[m], now) && event == Releasing then 1 else 0
  {
  }

  lemma VerdictCounted(s: State, w: WorkerId, verdict: Verdict, cause: DeadCause, nextRetryAt: Instant, m: MessageId,
                       event: Event)
    requires Opened(s, m) && ReadyToWriteBack(s, w)
    ensures var k := s.workers[w];
            EntryOf(ApplyVerdict(s, w, verdict, cause, nextRetryAt).past.accounts, m, event)
            == EntryOf(s.past.accounts, m, event)
               + if m in s.table && k.messageId == m && s.table[m].lockedBy == Some(k.instance) && verdict != Abandon
                    && (event == WritingBack || (event == Retrying && verdict == Retry))
                 then 1 else 0
  {
  }

  lemma OpenedAlways(s: State, m: MessageId)
    requires TxInv(s) && AccountInv(s)
    ensures Opened(s, m)
  {
  }

  lemma {:induction false} CountedRun(c: Config, s: State, steps: seq<Step>, m: MessageId, event: Event)
    requires TxInv(s) && RowInv(s) && AccountInv(s) && IsRun(c, s, steps)
    ensures EntryOf(End(c, s, steps).past.accounts, m, event)
         == EntryOf(s.past.accounts, m, event) + Occurrences(c, s, steps, m, event)
    decreases |steps|
  {
    if steps != [] {
      OpenedAlways(s, m);
      CountedStep(c, s, steps[0], m, event);
      TxStep(c, s, steps[0]);
      RowStep(c, s, steps[0]);
      AccountStep(c, s, steps[0]);
      CountedRun(c, Apply(c, s, steps[0]), steps[1..], m, event);
    }
  }

  lemma EntryOnRecord(c: Config, steps: seq<Step>, m: MessageId, event: Event)
    requires IsRun(c, INIT, steps)
    ensures EntryOf(End(c, INIT, steps).past.accounts, m, event) == Occurrences(c, INIT, steps, m, event)
  {
    CountedRun(c, INIT, steps, m, event);
  }

  // A committed message's account is the count of what the steps of the run did to it.
  lemma AccountsOnRecord(c: Config, steps: seq<Step>, m: MessageId)
    requires IsRun(c, INIT, steps) && m in End(c, INIT, steps).past.committed
    ensures m in End(c, INIT, steps).past.accounts
    ensures var a := End(c, INIT, steps).past.accounts[m];
            && a.acquired == Occurrences(c, INIT, steps, m, Locking)
            && a.takenOver == Occurrences(c, INIT, steps, m, TakingOver)
            && a.released == Occurrences(c, INIT, steps, m, Releasing)
            && a.writeBacks == Occurrences(c, INIT, steps, m, WritingBack)
            && a.retries == Occurrences(c, INIT, steps, m, Retrying)
  {
    AccountingTheorem(c, steps, m);
    EntryOnRecord(c, steps, m, Locking);
    EntryOnRecord(c, steps, m, TakingOver);
    EntryOnRecord(c, steps, m, Releasing);
    EntryOnRecord(c, steps, m, WritingBack);
    EntryOnRecord(c, steps, m, Retrying);
  }
}
