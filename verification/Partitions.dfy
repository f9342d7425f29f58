// Ordered processing: what the ordering clause of the cold batch does and does not give.

module Partitions {
  import opened OutboxTypes
  import opened MessageTable
  import opened AttemptTable
  import opened Delivery
  import opened Protocol
  import opened Conservation

  // Two rows of one partition: equal in all three columns, of which at least one is not NULL.
  predicate Rivals(t: Table, a: MessageId, b: MessageId)
    requires a in t && b in t
  {
    && a != b
    && t[a].key.tenant == t[b].key.tenant && t[a].key.user == t[b].key.user && t[a].key.entity == t[b].key.entity
    && (t[a].key.tenant.Some? || t[a].key.user.Some? || t[a].key.entity.Some?)
  }

  predicate LockedPast(m: Message, now: Instant) {
    m.status == Processing && m.lockedUntil.Some? && m.lockedUntil.value > now
  }

  // At most one live lock per keyed partition.
  ghost predicate OneLivePerPartition(t: Table, now: Instant) {
    forall a, b | a in t && b in t && Rivals(t, a, b) :: !(LockedPast(t[a], now) && LockedPast(t[b], now))
  }

  // What the three-valued clauses come to on two rows.
  lemma RivalsExact(t: Table, a: MessageId, b: MessageId)
    requires a in t && b in t
    ensures Rivals(t, a, b) <==> a != b && Keyed(t[a].key) && SamePartition(t[a].key, t[b].key)
  {
    SamePartitionIsEquality(t[a].key, t[b].key);
  }

  // Locking a set of free rows keeps at most one live lock per partition exactly when no
  // locked row has a rival that is live already or is locked with it.
  lemma LockingExact(t: Table, ids: set<MessageId>, owner: InstanceId, now: Instant, until: Instant)
    requires OneLivePerPartition(t, now) && until > now
    requires forall id :: id in ids ==> id in t && LeaseFree(t[id], now)
    ensures OneLivePerPartition(LockAll(t, ids, owner, until), now)
            <==> forall a, b | a in ids && b in t && Rivals(t, a, b) :: b !in ids && !LockedPast(t[b], now)
  {
    var t' := LockAll(t, ids, owner, until);
    forall a, b | a in t && b in t ensures Rivals(t', a, b) <==> Rivals(t, a, b) {
    }
    forall a, b | a in t && b in t && Rivals(t, a, b) ensures Rivals(t, b, a) {
      SamePartitionIsEquality(t[a].key, t[b].key);
      SamePartitionIsEquality(t[b].key, t[a].key);
    }
    if exists a, b :: a in ids && b in t && Rivals(t, a, b) && (b in ids || LockedPast(t[b], now)) {
      var a, b :| a in ids && b in t && Rivals(t, a, b) && (b in ids || LockedPast(t[b], now));
      assert Rivals(t', a, b) && LockedPast(t'[a], now) && LockedPast(t'[b], now);
    }
  }

  // A cold batch with ordering never takes a keyed row whose partition was busy, so the only
  // way it can put two live locks on a partition is to take both rows itself.
  lemma ColdBatchExact(t: Table, o: LockOptions, skip: set<MessageId>, now: Instant, picked: set<MessageId>,
                       owner: InstanceId)
    requires OneLivePerPartition(t, now)
    requires o.ordered && o.visibility > 0 && IsBatch(t, o, skip, now, picked)
    ensures OneLivePerPartition(LockAll(t, picked, owner, now + o.visibility), now)
            <==> forall a, b | a in picked && b in picked :: !Rivals(t, a, b)
  {
    LockingExact(t, picked, owner, now, now + o.visibility);
    forall a, b | a in picked && b in t && Rivals(t, a, b) ensures !LockedPast(t[b], now) {
      assert Candidate(t, a, o, skip, now);
      BusyMeansRival(t, a, now);
    }
  }

  // What a batch that takes both a and b has to take: the two, and all older candidates.
  function TakenWith(t: Table, among: set<MessageId>, a: MessageId, b: MessageId): set<MessageId>
    requires a in t && b in t && among <= t.Keys
  {
    {a, b} + set x | x in among && (t[x].createdAt < t[a].createdAt || t[x].createdAt < t[b].createdAt)
  }

  lemma TakesAllOlder(t: Table, among: set<MessageId>, n: nat, picked: set<MessageId>, a: MessageId, b: MessageId)
    requires IsOldest(t, among, n, picked) && a in picked && b in picked
    ensures |TakenWith(t, among, a, b)| <= n
  {
    SubsetSize(TakenWith(t, among, a, b), picked);
  }

  lemma CanTakeBoth(t: Table, among: set<MessageId>, n: nat, a: MessageId, b: MessageId)
    returns (picked: set<MessageId>)
    requires among <= t.Keys && a in among && b in among && |TakenWith(t, among, a, b)| <= n
    ensures IsOldest(t, among, n, picked) && a in picked && b in picked
  {
    var first := TakenWith(t, among, a, b);
    var rest := BatchExists(t, among - first, n - |first|);
    OldestFirst(t, among, n, first, rest);
    picked := first + rest;
  }

  lemma OldestFirst(t: Table, among: set<MessageId>, n: nat, first: set<MessageId>, rest: set<MessageId>)
    requires first <= among <= t.Keys && |first| <= n && IsOldest(t, among - first, n - |first|, rest)
    requires forall p, q :: p in first && q in among && q !in first ==> t[p].createdAt <= t[q].createdAt
    ensures IsOldest(t, among, n, first + rest)
  {
    SizesAdd(among, first, rest);
  }

  lemma SizesAdd(among: set<MessageId>, first: set<MessageId>, rest: set<MessageId>)
    requires first <= among && rest <= among - first
    ensures |first + rest| == |first| + |rest| && |among - first| == |among| - |first|
  {
    assert among == first + (among - first);
  }

  // Before the call: every ordered batch of a table keeps one live lock per partition exactly
  // when no two rival candidates are so old that one batch can reach the younger of them.
  lemma OrderedBatchExact(t: Table, o: LockOptions, skip: set<MessageId>, now: Instant, owner: InstanceId)
    requires OneLivePerPartition(t, now) && o.ordered && o.visibility > 0
    ensures (forall picked :: IsBatch(t, o, skip, now, picked) ==>
               OneLivePerPartition(LockAll(t, picked, owner, now + o.visibility), now))
            <==> (forall a, b | a in Candidates(t, o, skip, now) && b in Candidates(t, o, skip, now)
                && Rivals(t, a, b) ::
                    |TakenWith(t, Candidates(t, o, skip, now), a, b)| > o.batchSize)
  {
    var among := Candidates(t, o, skip, now);
    if exists a, b :: a in among && b in among && Rivals(t, a, b) && |TakenWith(t, among, a, b)| <= o.batchSize {
      var a, b :| a in among && b in among && Rivals(t, a, b) && |TakenWith(t, among, a, b)| <= o.batchSize;
      var picked := CanTakeBoth(t, among, o.batchSize, a, b);
      ColdBatchExact(t, o, skip, now, picked, owner);
      assert IsBatch(t, o, skip, now, picked);
    } else {
      forall picked | IsBatch(t, o, skip, now, picked)
        ensures OneLivePerPartition(LockAll(t, picked, owner, now + o.visibility), now)
      {
        forall a, b | a in picked && b in picked ensures !Rivals(t, a, b) {
          TakesAllOlder(t, among, o.batchSize, picked, a, b);
        }
        ColdBatchExact(t, o, skip, now, picked, owner);
      }
    }
  }

  // A row is locked ahead of an older unfinished rival exactly when that rival is in back-off,
  // skipped, or at the very end of its lease, where it is neither live nor free.
  lemma OvertakingExact(t: Table, o: LockOptions, skip: set<MessageId>, now: Instant, picked: set<MessageId>,
                        a: MessageId, b: MessageId)
    requires RowsOk(t) && o.ordered && IsBatch(t, o, skip, now, picked)
    requires a in picked && b in t && Rivals(t, a, b) && !t[b].Terminal() && t[b].createdAt < t[a].createdAt
    ensures b !in picked <==>
            (t[b].nextRetryAt.Some? && t[b].nextRetryAt.value > now) || b in skip || t[b].lockedUntil == Some(now)
  {
    assert a in Candidates(t, o, skip, now) && RowOk(t[b]);
    BusyMeansRival(t, a, now);
    RivalsShareBusyness(t, a, b, now);
    assert t[a].key == t[b].key;
    assert b in picked <==> b in Candidates(t, o, skip, now);
  }

  lemma RivalsShareBusyness(t: Table, a: MessageId, b: MessageId, now: Instant)
    requires a in t && b in t && Rivals(t, a, b) && !LockedPast(t[a], now) && !PartitionBusy(t, a, now)
    ensures !PartitionBusy(t, b, now)
  {
    RivalsExact(t, a, b);
    assert t[a].key == t[b].key;
  }

  // The hot path has no ordering clause: it keeps the property exactly when the message is
  // unkeyed or its partition happens not to be busy.
  lemma HotLockExact(t: Table, id: MessageId, now: Instant, visibility: int, owner: InstanceId)
    requires OneLivePerPartition(t, now)
    requires id in t && HotEligible(t[id], now) && visibility > 0
    ensures OneLivePerPartition(t[id := Lock(t[id], owner, now + visibility)], now)
            <==> !Keyed(t[id].key) || !PartitionBusy(t, id, now)
  {
    assert t[id := Lock(t[id], owner, now + visibility)] == LockAll(t, {id}, owner, now + visibility);
    LockingOneExact(t, id, owner, now, now + visibility);
    BusyMeansRival(t, id, now);
  }

  lemma LockingOneExact(t: Table, id: MessageId, owner: InstanceId, now: Instant, until: Instant)
    requires OneLivePerPartition(t, now) && until > now && id in t && LeaseFree(t[id], now)
    ensures OneLivePerPartition(LockAll(t, {id}, owner, until), now)
            <==> forall b | b in t && Rivals(t, id, b) :: !LockedPast(t[b], now)
  {
    LockingExact(t, {id}, owner, now, until);
  }

  lemma BusyMeansRival(t: Table, id: MessageId, now: Instant)
    requires id in t
    ensures !Keyed(t[id].key) || !PartitionBusy(t, id, now)
            <==> forall b | b in t && Rivals(t, id, b) :: !LockedPast(t[b], now)
  {
    forall b | b in t && b != id
      ensures Rivals(t, id, b) <==> Keyed(t[id].key) && SamePartition(t[b].key, t[id].key)
    {
      RivalsExact(t, id, b);
      SamePartitionIsEquality(t[id].key, t[b].key);
      SamePartitionIsEquality(t[b].key, t[id].key);
    }
  }

  // The ordering clause holds a row back exactly while a row of its partition is locked; with all
  // three columns NULL it never does.
  lemma OrderingClauseExact(t: Table, id: MessageId, o: LockOptions, skip: set<MessageId>, now: Instant)
    requires id in t && o.ordered
    ensures Candidate(t, id, o, skip, now) <==>
            Candidate(t, id, o.(ordered := false), skip, now)
            && forall b | b in t && Rivals(t, id, b) :: !LockedPast(t[b], now)
    ensures t[id].key == PartitionKey(None, None, None) ==>
              (Candidate(t, id, o, skip, now) <==> Candidate(t, id, o.(ordered := false), skip, now))
  {
    BusyMeansRival(t, id, now);
  }

  // The documented strict ordering fails: a run in which one ordered batch of two locks both
  // messages of a partition, where none was locked before.
  lemma BatchOfTwoBreaksOrder(c: Config) returns (steps: seq<Step>, batch: Step)
    ensures IsRun(c, INIT, steps) && ExclusivePartitions(End(c, INIT, steps))
    ensures batch.ColdLock? && batch.options.ordered && batch.options.batchSize == 2
    ensures Enabled(c, End(c, INIT, steps), batch)
    ensures !ExclusivePartitions(Apply(c, End(c, INIT, steps), batch))
  {
    steps := PublishTwo(c);
    batch := ColdLock("A", BATCH_OF_TWO, {}, BothPasses());
    TakesBoth(c, End(c, INIT, steps));
  }

  const BATCH_OF_TWO: LockOptions := LockOptions(2, 60, true, None)

  function BothPasses(): (passes: map<WorkerId, MessageId>)
    ensures passes.Values == {1, 2}
  {
    var passes := map[0 := 1, 1 := 2];
    assert passes[0] == 1 && passes[1] == 2;
    passes
  }

  ghost predicate HoldsTwo(s: State) {
    var m := NewMessage("order", PartitionKey(Some("t"), None, None), 0);
    s.table == map[1 := m, 2 := m] && s.now == 0 && s.past.lockedAs == map[]
  }

  lemma CanLockBoth(c: Config, s: State)
    requires HoldsTwo(s)
    ensures Enabled(c, s, ColdLock("A", BATCH_OF_TWO, {}, BothPasses()))
  {
    TwoRivals(s.table, BATCH_OF_TWO);
    assert BothPasses() == map[0 := 1, 1 := 2];
  }

  lemma LockingBothBreaks(s: State)
    requires HoldsTwo(s) && forall w :: w in BothPasses() ==> BothPasses()[w] in s.table
    ensures ExclusivePartitions(s) && !ExclusivePartitions(ApplyColdLock(s, "A", 60, BothPasses()))
  {
    TwoRivals(s.table, BATCH_OF_TWO);
    PartitionColdLock(s, "A", 60, BothPasses());
  }

  lemma TakesBoth(c: Config, s: State)
    requires HoldsTwo(s)
    ensures ExclusivePartitions(s)
    ensures Enabled(c, s, ColdLock("A", BATCH_OF_TWO, {}, BothPasses()))
    ensures !ExclusivePartitions(Apply(c, s, ColdLock("A", BATCH_OF_TWO, {}, BothPasses())))
  {
    CanLockBoth(c, s);
    ColdLockTakes(c, s, "A", BATCH_OF_TWO, {}, BothPasses());
    LockingBothBreaks(s);
  }

  lemma TwoRivals(t: Table, o: LockOptions)
    requires var m := NewMessage("order", PartitionKey(Some("t"), None, None), 0); t == map[1 := m, 2 := m]
    requires o == LockOptions(2, 60, true, None)
    ensures IsBatch(t, o, {}, 0, {1, 2})
    ensures OneLivePerPartition(t, 0) && !OneLivePerPartition(LockAll(t, {1, 2}, "A", 60), 0)
  {
    assert Candidates(t, o, {}, 0) == {1, 2};
    SamePartitionIsEquality(t[1].key, t[2].key);
    assert Rivals(t, 1, 2);
    ColdBatchExact(t, o, {}, 0, {1, 2}, "A");
  }

  lemma PublishTwo(c: Config) returns (steps: seq<Step>)
    ensures IsRun(c, INIT, steps)
    ensures HoldsTwo(End(c, INIT, steps))
  {
    var key := PartitionKey(Some("t"), None, None);
    steps := [];
    steps := AddStep(c, steps, Insert(1, "order", key));
    steps := AddStep(c, steps, Commit(1));
    steps := AddStep(c, steps, Insert(2, "order", key));
    steps := AddStep(c, steps, Commit(2));
  }

  lemma AddStep(c: Config, steps: seq<Step>, step: Step) returns (longer: seq<Step>)
    requires IsRun(c, INIT, steps) && Enabled(c, End(c, INIT, steps), step)
    ensures IsRun(c, INIT, longer) && End(c, INIT, longer) == Apply(c, End(c, INIT, steps), step)
  {
    OneStepRuns(c, End(c, INIT, steps), step);
    RunsCompose(c, INIT, steps, [step]);
    longer := steps + [step];
  }

  // ---- Cold-only runs, one message at a time ------------------------------------------------

  ghost predicate ExclusivePartitions(s: State) {
    OneLivePerPartition(s.table, s.now)
  }

  predicate ColdByOne(step: Step) {
    !step.HotLock? && (step.ColdLock? ==> step.options.ordered && step.options.batchSize <= 1)
  }

  lemma PartitionStep(c: Config, s: State, step: Step)
    requires TxInv(s) && RowInv(s) && ExclusivePartitions(s)
    requires Enabled(c, s, step) && ColdByOne(step)
    ensures ExclusivePartitions(Apply(c, s, step))
  {
    if PassStep(step) {
      PartitionPass(c, s, step);
    } else {
      match step
      case WriteBack(w, nextRetryAt) => PartitionWriteBackStep(c, s, w, nextRetryAt);
      case ColdLock(instance, o, skip, passes) => PartitionColdLockStep(c, s, instance, o, skip, passes);
      case _ => PartitionOther(c, s, step);
    }
  }

  lemma PartitionPass(c: Config, s: State, step: Step)
    requires ExclusivePartitions(s) && Enabled(c, s, step) && PassStep(step)
    ensures ExclusivePartitions(Apply(c, s, step))
  {
    PassStepFrame(c, s, step);
    assert Apply(c, s, step).now >= s.now;
  }

  lemma PartitionOther(c: Config, s: State, step: Step)
    requires TxInv(s) && RowInv(s) && ExclusivePartitions(s) && Enabled(c, s, step)
    requires step.Insert? || step.Commit? || step.Rollback? || step.Release? || step.PurgeOld?
    ensures ExclusivePartitions(Apply(c, s, step))
  {
    FewerLive(s.table, Apply(c, s, step).table, s.now);
  }

  lemma FewerLive(t: Table, t': Table, now: Instant)
    requires OneLivePerPartition(t, now)
    requires forall id :: id in t' && LockedPast(t'[id], now) ==> id in t && t'[id] == t[id]
    ensures OneLivePerPartition(t', now)
  {
  }

  lemma PartitionWriteBackStep(c: Config, s: State, w: WorkerId, nextRetryAt: Instant)
    requires ExclusivePartitions(s) && Enabled(c, s, WriteBack(w, nextRetryAt))
    ensures ExclusivePartitions(Apply(c, s, WriteBack(w, nextRetryAt)))
  {
    PartitionVerdict(s, w, VerdictOf(c, s.workers[w]), CauseOf(c, w, s.workers[w]), nextRetryAt);
    assert ApplyVerdict(s, w, VerdictOf(c, s.workers[w]), CauseOf(c, w, s.workers[w]), nextRetryAt).now == s.now;
  }

  lemma PartitionColdLockStep(c: Config, s: State, instance: InstanceId, o: LockOptions, skip: set<MessageId>,
                              passes: map<WorkerId, MessageId>)
    requires ExclusivePartitions(s) && Enabled(c, s, ColdLock(instance, o, skip, passes))
    requires o.ordered && o.batchSize <= 1
    ensures ExclusivePartitions(Apply(c, s, ColdLock(instance, o, skip, passes)))
  {
    ColdLockTakes(c, s, instance, o, skip, passes);
    OneLockMore(s, instance, o, skip, passes.Values);
    PartitionColdLock(s, instance, o.visibility, passes);
  }

  function AfterLock(s: State, ids: set<MessageId>, instance: InstanceId, visibility: int): State {
    s.(table := LockAll(s.table, ids, instance, s.now + visibility))
  }

  lemma OneLockMore(s: State, instance: InstanceId, o: LockOptions, skip: set<MessageId>, picked: set<MessageId>)
    requires ExclusivePartitions(s) && IsBatch(s.table, o, skip, s.now, picked)
    requires o.ordered && o.batchSize <= 1
    ensures ExclusivePartitions(AfterLock(s, picked, instance, o.visibility))
  {
    BatchOfOne(s.table, o, skip, s.now, picked, instance);
    ExclusiveAfterLock(s, picked, instance, o.visibility);
  }

  lemma ExclusiveAfterLock(s: State, ids: set<MessageId>, instance: InstanceId, visibility: int)
    requires OneLivePerPartition(LockAll(s.table, ids, instance, s.now + visibility), s.now)
    ensures ExclusivePartitions(AfterLock(s, ids, instance, visibility))
  {
  }

  lemma PartitionColdLock(s: State, instance: InstanceId, visibility: int, passes: map<WorkerId, MessageId>)
    requires forall w :: w in passes ==> passes[w] in s.table
    ensures ExclusivePartitions(ApplyColdLock(s, instance, visibility, passes))
            <==> ExclusivePartitions(AfterLock(s, passes.Values, instance, visibility))
  {
  }

  lemma PartitionVerdict(s: State, w: WorkerId, verdict: Verdict, cause: DeadCause, nextRetryAt: Instant)
    requires ExclusivePartitions(s) && ReadyToWriteBack(s, w)
    ensures ExclusivePartitions(ApplyVerdict(s, w, verdict, cause, nextRetryAt))
  {
  }

  lemma AtMostOne<T>(picked: set<T>, a: T, b: T)
    requires |picked| <= 1 && a in picked && b in picked
    ensures a == b
  {
    if a != b {
      SubsetSize({a, b}, picked);
    }
  }

  lemma BatchOfOne(t: Table, o: LockOptions, skip: set<MessageId>, now: Instant, picked: set<MessageId>,
                   owner: InstanceId)
    requires OneLivePerPartition(t, now)
    requires o.ordered && o.batchSize <= 1 && IsBatch(t, o, skip, now, picked)
    ensures OneLivePerPartition(LockAll(t, picked, owner, now + o.visibility), now)
  {
    if o.visibility > 0 {
      forall a, b | a in picked && b in picked ensures !Rivals(t, a, b) {
        AtMostOne(picked, a, b);
      }
      ColdBatchExact(t, o, skip, now, picked, owner);
    }
  }

  ghost predicate ColdByOneRun(steps: seq<Step>) {
    forall i :: 0 <= i < |steps| ==> ColdByOne(steps[i])
  }

  lemma {:induction false} PartitionRun(c: Config, s: State, steps: seq<Step>)
    requires TxInv(s) && RowInv(s) && ExclusivePartitions(s)
    requires IsRun(c, s, steps) && ColdByOneRun(steps)
    ensures ExclusivePartitions(End(c, s, steps))
    decreases |steps|
  {
    if steps != [] {
      TxStep(c, s, steps[0]);
      RowStep(c, s, steps[0]);
      PartitionStep(c, s, steps[0]);
      PartitionRun(c, Apply(c, s, steps[0]), steps[1..]);
    }
  }

  // With ordering on, cold path only and batches of one, no reachable state has two live locks on
  // rows equal in all three columns, unless all three are NULL.
  lemma OrderedColdTheorem(c: Config, steps: seq<Step>)
    requires IsRun(c, INIT, steps) && ColdByOneRun(steps)
    ensures var s := End(c, INIT, steps);
            forall a, b | a in s.table && b in s.table && a != b && s.table[a].key == s.table[b].key
              && s.table[a].status == Processing && s.table[b].status == Processing
              && s.table[a].lockedUntil.Some? && s.table[a].lockedUntil.value > s.now
              && s.table[b].lockedUntil.Some? && s.table[b].lockedUntil.value > s.now ::
              s.table[a].key == PartitionKey(None, None, None)
  {
    PartitionRun(c, INIT, steps);
  }
}
