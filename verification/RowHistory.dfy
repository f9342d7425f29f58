// What a row's columns say about its past: when and as what it was published, and how long a
// retry keeps it waiting, on every run.

module RowHistory {
  import opened OutboxTypes
  import opened MessageTable
  import opened Delivery
  import opened Protocol
  import opened Conservation

  // ---- Steps are statements -----------------------------------------------------------------

  // A lock leaves the table as the store's statement does, its lease running from this moment, and
  // the pass it starts knows that lease and the RetryCount of its row.
  lemma HotLockIsStatement(c: Config, s: State, w: WorkerId, instance: InstanceId, id: MessageId, visibility: int)
    requires Enabled(c, s, HotLock(w, instance, id, visibility))
    ensures var s' := Apply(c, s, HotLock(w, instance, id, visibility));
            && s'.table == LockAll(s.table, {id}, instance, s.now + visibility)
            && s'.workers == s.workers[w := Worker(instance, id, s.now + visibility, s.table[id].retryCount, Locked)]
  {
  }

  ghost predicate BatchLocked(s: State, s': State, instance: InstanceId, visibility: int,
                              passes: map<WorkerId, MessageId>)
  {
    var until := s.now + visibility;
    && s'.table == LockAll(s.table, passes.Values, instance, until)
    && s'.workers.Keys == s.workers.Keys + passes.Keys
    && forall w :: w in passes ==>
         && passes[w] in s.table
         && s'.workers[w] == Worker(instance, passes[w], until, s.table[passes[w]].retryCount, Locked)
  }

  lemma ColdLockIsStatement(c: Config, s: State, instance: InstanceId, o: LockOptions, skip: set<MessageId>,
                            passes: map<WorkerId, MessageId>)
    requires Enabled(c, s, ColdLock(instance, o, skip, passes))
    ensures BatchLocked(s, Apply(c, s, ColdLock(instance, o, skip, passes)), instance, o.visibility, passes)
  {
    ColdLockTakes(c, s, instance, o, skip, passes);
    ColdLockEffect(s, instance, o.visibility, passes);
    assert Apply(c, s, ColdLock(instance, o, skip, passes)) == ApplyColdLock(s, instance, o.visibility, passes);
  }

  lemma ColdLockEffect(s: State, instance: InstanceId, visibility: int, passes: map<WorkerId, MessageId>)
    requires forall w :: w in passes ==> passes[w] in s.table
    ensures BatchLocked(s, ApplyColdLock(s, instance, visibility, passes), instance, visibility, passes)
  {
  }

  // So do release and purge, and a commit adds the row as it was inserted. Every other step but a
  // write-back leaves the table alone.
  lemma OthersAreStatements(c: Config, s: State, step: Step)
    requires Enabled(c, s, step) && !step.HotLock? && !step.ColdLock? && !step.WriteBack?
    ensures Apply(c, s, step).table ==
            if step.Release? then ReleaseExpired(s.table, s.now)
            else if step.PurgeOld? then Purge(s.table, step.olderThan)
            else if step.Commit? && step.id in s.open then s.table[step.id := s.open[step.id]]
            else s.table
  {
    if PassStep(step) {
      PassStepFrame(c, s, step);
    }
  }

  // ---- Publication --------------------------------------------------------------------------

  predicate PublishedAs(m: Message, eventType: string, key: PartitionKey, at: Instant) {
    m.eventType == eventType && m.key == key && m.createdAt == at
  }

  // Wherever the message is now.
  ghost predicate HasOrigin(s: State, id: MessageId, eventType: string, key: PartitionKey, at: Instant) {
    && !Fresh(s, id)
    && (id in s.open ==> PublishedAs(s.open[id], eventType, key, at))
    && (id in s.table ==> PublishedAs(s.table[id], eventType, key, at))
    && (id in s.past.purged ==> PublishedAs(s.past.purged[id], eventType, key, at))
  }

  lemma OriginStep(c: Config, s: State, step: Step, id: MessageId, eventType: string, key: PartitionKey, at: Instant)
    requires TxInv(s) && Enabled(c, s, step) && HasOrigin(s, id, eventType, key, at)
    ensures HasOrigin(Apply(c, s, step), id, eventType, key, at)
  {
    if PassStep(step) {
      PassStepFrame(c, s, step);
    } else {
      match step
      case WriteBack(w, nextRetryAt) => OriginWriteBackStep(c, s, w, nextRetryAt, id, eventType, key, at);
      case ColdLock(instance, o, skip, passes) =>
        ColdLockTakes(c, s, instance, o, skip, passes);
        OriginColdLock(s, instance, o.visibility, passes, id, eventType, key, at);
      case _ =>
    }
  }

  lemma OriginWriteBackStep(c: Config, s: State, w: WorkerId, nextRetryAt: Instant, id: MessageId, eventType: string,
                            key: PartitionKey, at: Instant)
    requires Enabled(c, s, WriteBack(w, nextRetryAt)) && HasOrigin(s, id, eventType, key, at)
    ensures HasOrigin(Apply(c, s, WriteBack(w, nextRetryAt)), id, eventType, key, at)
  {
    OriginVerdict(s, w, VerdictOf(c, s.workers[w]), CauseOf(c, w, s.workers[w]), nextRetryAt, id, eventType, key, at);
  }

  lemma OriginVerdict(s: State, w: WorkerId, verdict: Verdict, cause: DeadCause, nextRetryAt: Instant, id: MessageId,
                      eventType: string, key: PartitionKey, at: Instant)
    requires ReadyToWriteBack(s, w) && HasOrigin(s, id, eventType, key, at)
    ensures HasOrigin(ApplyVerdict(s, w, verdict, cause, nextRetryAt), id, eventType, key, at)
  {
  }

  lemma OriginColdLock(s: State, instance: InstanceId, visibility: int, passes: map<WorkerId, MessageId>, id: MessageId,
                       eventType: string, key: PartitionKey, at: Instant)
    requires HasOrigin(s, id, eventType, key, at) && forall w :: w in passes ==> passes[w] in s.table
    ensures HasOrigin(ApplyColdLock(s, instance, visibility, passes), id, eventType, key, at)
  {
  }

  lemma {:induction false} OriginKept(c: Config, s: State, steps: seq<Step>, id: MessageId, eventType: string,
                                      key: PartitionKey, at: Instant)
    requires TxInv(s) && IsRun(c, s, steps) && HasOrigin(s, id, eventType, key, at)
    ensures HasOrigin(End(c, s, steps), id, eventType, key, at)
    decreases |steps|
  {
    if steps != [] {
      TxStep(c, s, steps[0]);
      OriginStep(c, s, steps[0], id, eventType, key, at);
      OriginKept(c, Apply(c, s, steps[0]), steps[1..], id, eventType, key, at);
    }
  }

  // Only an insert makes an id known.
  lemma FreshStep(c: Config, s: State, step: Step, id: MessageId)
    requires TxInv(s) && Enabled(c, s, step) && Fresh(s, id) && !(step.Insert? && step.id == id)
    ensures Fresh(Apply(c, s, step), id)
  {
    if PassStep(step) {
      PassStepFrame(c, s, step);
    } else if step.WriteBack? {
      var k := s.workers[step.w];
      VerdictFrame(s, step.w, VerdictOf(c, k), CauseOf(c, step.w, k), step.nextRetryAt);
    }
  }

  lemma InsertOrigin(c: Config, s: State, step: Step)
    requires TxInv(s) && Enabled(c, s, step) && step.Insert?
    ensures HasOrigin(Apply(c, s, step), step.id, step.eventType, step.key, s.now)
  {
  }

  ghost predicate InsertedAt(c: Config, s: State, steps: seq<Step>, i: nat, id: MessageId) {
    i < |steps| && steps[i].Insert? && steps[i].id == id && IsRun(c, s, steps[..i])
  }

  lemma {:induction false} OriginRun(c: Config, s: State, steps: seq<Step>, id: MessageId) returns (i: nat)
    requires TxInv(s) && Fresh(s, id) && IsRun(c, s, steps) && !Fresh(End(c, s, steps), id)
    ensures InsertedAt(c, s, steps, i, id)
    ensures HasOrigin(End(c, s, steps), id, steps[i].eventType, steps[i].key, End(c, s, steps[..i]).now)
    decreases |steps|
  {
    var s1 := Apply(c, s, steps[0]);
    TxStep(c, s, steps[0]);
    if steps[0].Insert? && steps[0].id == id {
      InsertOrigin(c, s, steps[0]);
      OriginKept(c, s1, steps[1..], id, steps[0].eventType, steps[0].key, s.now);
      i := 0;
    } else {
      FreshStep(c, s, steps[0], id);
      var j := OriginRun(c, s1, steps[1..], id);
      i := j + 1;
      assert steps[..i][0] == steps[0] && steps[..i][1..] == steps[1..][..j];
    }
  }

  // A message, open, stored or purged, has the event type and key of the one insert that made it,
  // and as CreatedAt the time of that insert, whatever was done to its row since.
  lemma PublicationTheorem(c: Config, steps: seq<Step>, id: MessageId) returns (i: nat)
    requires IsRun(c, INIT, steps)
    requires var s := End(c, INIT, steps); id in s.open || id in s.table || id in s.past.purged
    ensures i < |steps| && steps[i].Insert? && steps[i].id == id && IsRun(c, INIT, steps[..i])
    ensures var s, at := End(c, INIT, steps), End(c, INIT, steps[..i]).now;
            && (id in s.open ==> PublishedAs(s.open[id], steps[i].eventType, steps[i].key, at))
            && (id in s.table ==> PublishedAs(s.table[id], steps[i].eventType, steps[i].key, at))
            && (id in s.past.purged ==> PublishedAs(s.past.purged[id], steps[i].eventType, steps[i].key, at))
  {
    TxRun(c, INIT, steps);
    i := OriginRun(c, INIT, steps, id);
  }

  lemma {:induction false} TxRun(c: Config, s: State, steps: seq<Step>)
    requires TxInv(s) && IsRun(c, s, steps)
    ensures TxInv(End(c, s, steps))
    decreases |steps|
  {
    if steps != [] {
      TxStep(c, s, steps[0]);
      TxRun(c, Apply(c, s, steps[0]), steps[1..]);
    }
  }

  // ---- Back-off -----------------------------------------------------------------------------

  predicate LocksIt(step: Step, id: MessageId) {
    || (step.HotLock? && step.id == id)
    || (step.ColdLock? && id in step.passes.Values)
  }

  // The row as a retry leaves it.
  ghost predicate Resting(s: State, id: MessageId, row: Message, due: Instant) {
    && id in s.table && s.table[id] == row
    && row.status == Pending && row.lockedBy.None? && row.lockedUntil.None? && row.nextRetryAt == Some(due)
  }

  lemma RestingStep(c: Config, s: State, step: Step, id: MessageId, row: Message, due: Instant)
    requires TxInv(s) && Resting(s, id, row, due) && Enabled(c, s, step) && !LocksIt(step, id)
    ensures Resting(Apply(c, s, step), id, row, due)
  {
    if PassStep(step) {
      PassStepFrame(c, s, step);
    } else {
      match step
      case WriteBack(w, nextRetryAt) =>
        RestingVerdict(s, w, VerdictOf(c, s.workers[w]), CauseOf(c, w, s.workers[w]), nextRetryAt, id, row, due);
      case _ =>
    }
  }

  lemma RestingVerdict(s: State, w: WorkerId, verdict: Verdict, cause: DeadCause, nextRetryAt: Instant, id: MessageId,
                       row: Message, due: Instant)
    requires Resting(s, id, row, due) && ReadyToWriteBack(s, w)
    ensures Resting(ApplyVerdict(s, w, verdict, cause, nextRetryAt), id, row, due)
  {
  }

  // Before the date no lock can take the row; from the date on the lock by id can.
  lemma LockableWhenDue(c: Config, s: State, step: Step, id: MessageId, row: Message, due: Instant)
    requires Resting(s, id, row, due) && LocksIt(step, id)
    ensures Enabled(c, s, step) ==> s.now >= due
    ensures step.HotLock? ==> (Enabled(c, s, step) <==> step.w !in s.past.lockedAs && s.now >= due)
  {
    if step.ColdLock? && Enabled(c, s, step) {
      ColdLockTakes(c, s, step.instance, step.options, step.skip, step.passes);
    }
  }

  lemma ClockStep(c: Config, s: State, step: Step)
    requires Enabled(c, s, step)
    ensures Apply(c, s, step).now >= s.now
  {
    if PassStep(step) {
      PassStepWorkers(c, s, step);
    }
  }

  lemma {:induction false} ClockRun(c: Config, s: State, steps: seq<Step>)
    requires IsRun(c, s, steps)
    ensures End(c, s, steps).now >= s.now
    decreases |steps|
  {
    if steps != [] {
      ClockStep(c, s, steps[0]);
      ClockRun(c, Apply(c, s, steps[0]), steps[1..]);
    }
  }

  ghost predicate NeverLocked(steps: seq<Step>, id: MessageId) {
    forall i :: 0 <= i < |steps| ==> !LocksIt(steps[i], id)
  }

  lemma {:induction false} RestingRun(c: Config, s: State, steps: seq<Step>, id: MessageId, row: Message, due: Instant)
    requires TxInv(s) && Resting(s, id, row, due) && IsRun(c, s, steps)
    requires End(c, s, steps).now < due || NeverLocked(steps, id)
    ensures Resting(End(c, s, steps), id, row, due)
    decreases |steps|
  {
    if steps != [] {
      if LocksIt(steps[0], id) {
        LockableWhenDue(c, s, steps[0], id, row, due);
        ClockRun(c, s, steps);
      }
      TxStep(c, s, steps[0]);
      RestingStep(c, s, steps[0], id, row, due);
      RestingRun(c, Apply(c, s, steps[0]), steps[1..], id, row, due);
    }
  }

  // The row a retry found, with the columns a retry writes.
  function AsRetried(m: Message, due: Instant): Message {
    m.(status := Pending, retryCount := m.retryCount + 1, lockedBy := None, lockedUntil := None,
       nextRetryAt := Some(due))
  }

  lemma RetryLands(c: Config, s: State, w: WorkerId, due: Instant)
    requires Enabled(c, s, WriteBack(w, due)) && VerdictOf(c, s.workers[w]) == Retry
    requires var k := s.workers[w]; k.messageId in s.table && s.table[k.messageId].lockedBy == Some(k.instance)
    ensures var id := s.workers[w].messageId;
            Resting(Apply(c, s, WriteBack(w, due)), id, AsRetried(s.table[id], due), due)
  {
  }

  // Back-off is honoured on every run: after a retry with date `due` has landed, nothing at all
  // happens to the row and no lock of either kind can take it while the clock is before `due`. It
  // stays as it is for as long as nothing locks it, and the lock by id can take it from `due` on.
  lemma BackoffTheorem(c: Config, before: seq<Step>, w: WorkerId, due: Instant, after: seq<Step>, id: MessageId,
                       next: Step)
    requires IsRun(c, INIT, before)
    requires var s := End(c, INIT, before);
             && Enabled(c, s, WriteBack(w, due)) && VerdictOf(c, s.workers[w]) == Retry
             && s.workers[w].messageId == id && id in s.table && s.table[id].lockedBy == Some(s.workers[w].instance)
             && IsRun(c, Apply(c, s, WriteBack(w, due)), after)
    requires LocksIt(next, id)
    ensures var s := End(c, INIT, before);
            var s' := End(c, Apply(c, s, WriteBack(w, due)), after);
            && (s'.now < due ==> id in s'.table && s'.table[id] == AsRetried(s.table[id], due) && !Enabled(c, s', next))
            && (NeverLocked(after, id) ==>
                  && id in s'.table && s'.table[id] == AsRetried(s.table[id], due)
                  && (next.HotLock? && next.w !in s'.past.lockedAs ==> (Enabled(c, s', next) <==> s'.now >= due)))
  {
    var s := End(c, INIT, before);
    var s1 := Apply(c, s, WriteBack(w, due));
    var s' := End(c, s1, after);
    TxRun(c, INIT, before);
    TxStep(c, s, WriteBack(w, due));
    RetryLands(c, s, w, due);
    if s'.now < due || NeverLocked(after, id) {
      RestingRun(c, s1, after, id, AsRetried(s.table[id], due), due);
      LockableWhenDue(c, s', next, id, AsRetried(s.table[id], due), due);
    }
  }
}
