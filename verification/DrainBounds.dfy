// How fast and how surely a table drains: no run finishes more messages than its locks allow,
// and a drain in progress can always be completed.

module DrainBounds {
  import opened OutboxTypes
  import opened MessageTable
  import opened AttemptTable
  import opened Delivery
  import opened Protocol
  import opened Conservation
  import opened AttemptInvariant
  import opened Soundness
  import opened Reachability
  import opened Drain

  // ---- No run finishes more than it locks -----------------------------------------------------

  function Finished(s: State): set<MessageId> {
    (set id | id in s.table && s.table[id].Terminal()) + s.past.purged.Keys
  }

  // How many messages the locks of a run may take.
  function LocksTaken(steps: seq<Step>): nat {
    if steps == [] then 0 else LocksBy(steps[0]) + LocksTaken(steps[1..])
  }

  function LocksBy(step: Step): nat {
    match step
    case HotLock(_, _, _, _) => 1
    case ColdLock(_, o, _, _) => o.batchSize
    case _ => 0
  }

  // A message is newly finished only by a write-back of a pass on it.
  lemma NewlyFinished(c: Config, s: State, step: Step, m: MessageId)
    requires TxInv(s) && RowInv(s) && Enabled(c, s, step)
    requires m in Finished(Apply(c, s, step)) && m !in Finished(s)
    ensures step.WriteBack? && s.workers[step.w].messageId == m
  {
    var s' := Apply(c, s, step);
    if m in s'.table && s'.table[m].Terminal() {
      TerminalOrigin(c, s, step, m);
    } else {
      PurgedWereFinished(c, s, step, m);
    }
  }

  lemma PurgedWereFinished(c: Config, s: State, step: Step, m: MessageId)
    requires Enabled(c, s, step) && m in Apply(c, s, step).past.purged
    ensures m in Finished(s)
  {
    if PassStep(step) {
      PassStepFrame(c, s, step);
    }
  }

  // Passes in flight can only come from locks.
  lemma PassesInFlight(c: Config, s: State, step: Step)
    requires Enabled(c, s, step)
    ensures |Apply(c, s, step).workers.Keys| + (if step.WriteBack? then 1 else 0) <= |s.workers.Keys| + LocksBy(step)
  {
    match step
    case HotLock(w, instance, id, visibility) => OneStarts(c, s, w, instance, id, visibility);
    case ColdLock(instance, o, skip, passes) => BatchStarts(c, s, instance, o, skip, passes);
    case WriteBack(w, nextRetryAt) => OneEnds(c, s, w, nextRetryAt);
    case _ => NobodyStarts(c, s, step);
  }

  lemma OneStarts(c: Config, s: State, w: WorkerId, instance: InstanceId, id: MessageId, visibility: int)
    requires Enabled(c, s, HotLock(w, instance, id, visibility))
    ensures |Apply(c, s, HotLock(w, instance, id, visibility)).workers.Keys| <= |s.workers.Keys| + 1
  {
    Union(s.workers.Keys, {w}, Apply(c, s, HotLock(w, instance, id, visibility)).workers.Keys);
  }

  lemma OneEnds(c: Config, s: State, w: WorkerId, nextRetryAt: Instant)
    requires Enabled(c, s, WriteBack(w, nextRetryAt))
    ensures |Apply(c, s, WriteBack(w, nextRetryAt)).workers.Keys| + 1 == |s.workers.Keys|
  {
    assert s.workers.Keys == Apply(c, s, WriteBack(w, nextRetryAt)).workers.Keys + {w};
  }

  lemma NobodyStarts(c: Config, s: State, step: Step)
    requires Enabled(c, s, step) && !step.HotLock? && !step.ColdLock? && !step.WriteBack?
    ensures Apply(c, s, step).workers.Keys <= s.workers.Keys
    ensures |Apply(c, s, step).workers.Keys| <= |s.workers.Keys|
  {
    if PassStep(step) {
      PassStepFrame(c, s, step);
    }
    SubsetSize(Apply(c, s, step).workers.Keys, s.workers.Keys);
  }

  lemma BatchStarts(c: Config, s: State, instance: InstanceId, o: LockOptions, skip: set<MessageId>,
                    passes: map<WorkerId, MessageId>)
    requires Enabled(c, s, ColdLock(instance, o, skip, passes))
    ensures |Apply(c, s, ColdLock(instance, o, skip, passes)).workers.Keys| <= |s.workers.Keys| + o.batchSize
  {
    ColdLockTakes(c, s, instance, o, skip, passes);
    BatchSize(s.table, o, skip, s.now, passes);
    BatchKeys(s, instance, o.visibility, passes);
  }

  lemma BatchSize(t: Table, o: LockOptions, skip: set<MessageId>, now: Instant, passes: map<WorkerId, MessageId>)
    requires Injective(passes) && IsBatch(t, o, skip, now, passes.Values)
    ensures |passes.Keys| <= o.batchSize
  {
    SameSize(passes);
  }

  lemma BatchKeys(s: State, instance: InstanceId, visibility: int, passes: map<WorkerId, MessageId>)
    requires forall w :: w in passes ==> passes[w] in s.table
    ensures |ApplyColdLock(s, instance, visibility, passes).workers.Keys| <= |s.workers.Keys| + |passes.Keys|
  {
    Union(s.workers.Keys, passes.Keys, ApplyColdLock(s, instance, visibility, passes).workers.Keys);
  }

  lemma Union<T>(a: set<T>, b: set<T>, whole: set<T>)
    requires whole <= a + b
    ensures |whole| <= |a| + |b|
  {
    SubsetSize(whole, a + b);
    assert a + b == a + (b - a);
    SubsetSize(b - a, b);
  }

  lemma {:induction false} SameSize(passes: map<WorkerId, MessageId>)
    requires Injective(passes)
    ensures |passes.Keys| == |passes.Values|
    decreases passes.Keys
  {
    if passes.Keys == {} {
      assert passes.Values == {};
    } else {
      var w :| w in passes;
      var rest := passes - {w};
      assert passes.Keys == {w} + rest.Keys;
      ValuesSplit(passes, w);
      SameSize(rest);
    }
  }

  lemma ValuesSplit(passes: map<WorkerId, MessageId>, w: WorkerId)
    requires Injective(passes) && w in passes
    ensures passes.Values == {passes[w]} + (passes - {w}).Values && passes[w] !in (passes - {w}).Values
  {
    forall id | id in passes.Values ensures id == passes[w] || id in (passes - {w}).Values {
      var v :| v in passes && passes[v] == id;
      assert v != w ==> v in passes - {w} && (passes - {w})[v] == id;
    }
  }

  lemma FinishedStep(c: Config, s: State, step: Step, before: set<MessageId>)
    requires TxInv(s) && RowInv(s) && Enabled(c, s, step)
    ensures |Finished(Apply(c, s, step)) - before| + |Apply(c, s, step).workers.Keys|
         <= |Finished(s) - before| + |s.workers.Keys| + LocksBy(step)
  {
    var earlier, later := Finished(s) - before, Finished(Apply(c, s, step)) - before;
    PassesInFlight(c, s, step);
    var one := if step.WriteBack? then {s.workers[step.w].messageId} else {};
    forall m | m in later ensures m in earlier + one {
      if m !in Finished(s) {
        NewlyFinished(c, s, step, m);
      }
    }
    Union(earlier, one, later);
  }

  // Counted from any state: the messages finished since then, and the passes still in flight,
  // are no more than the passes in flight then and the rows the run's locks could take.
  lemma {:induction false} FinishedIsBounded(c: Config, s: State, steps: seq<Step>, before: set<MessageId>)
    requires Inv(c, s) && IsRun(c, s, steps)
    ensures |Finished(End(c, s, steps)) - before| + |End(c, s, steps).workers.Keys|
         <= |Finished(s) - before| + |s.workers.Keys| + LocksTaken(steps)
    decreases |steps|
  {
    if steps != [] {
      InvStep(c, s, steps[0]);
      FinishedStep(c, s, steps[0], before);
      FinishedIsBounded(c, Apply(c, s, steps[0]), steps[1..], before);
    }
  }

  // From any reachable state with no pass in flight, a run finishes no more messages than its
  // locks could take, whatever else it does.
  lemma LocksBoundTheorem(c: Config, before: seq<Step>, steps: seq<Step>)
    requires IsRun(c, INIT, before) && IsRun(c, End(c, INIT, before), steps)
    requires End(c, INIT, before).workers == map[]
    ensures var s := End(c, INIT, before);
            |Finished(End(c, s, steps)) - Finished(s)| <= LocksTaken(steps)
  {
    InvRun(c, INIT, before);
    var s := End(c, INIT, before);
    FinishedIsBounded(c, s, steps, Finished(s));
    NothingYet(Finished(s));
  }

  lemma NothingYet(finished: set<MessageId>)
    ensures |finished - finished| == 0
  {
    assert finished - finished == {};
  }

  predicate ColdOnly(steps: seq<Step>, b: nat) {
    forall step :: step in steps ==> !step.HotLock? && (step.ColdLock? ==> step.options.batchSize <= b)
  }

  lemma {:induction false} ColdLocksTake(steps: seq<Step>, b: nat)
    requires ColdOnly(steps, b)
    ensures LocksTaken(steps) <= ColdLocks(steps) * b
  {
    if steps != [] {
      ColdLocksTake(steps[1..], b);
      assert (1 + ColdLocks(steps[1..])) * b == b + ColdLocks(steps[1..]) * b;
    }
  }

  lemma {:induction false} CommittedRun(c: Config, s: State, steps: seq<Step>)
    requires Inv(c, s) && IsRun(c, s, steps)
    ensures s.past.committed <= End(c, s, steps).past.committed && Inv(c, End(c, s, steps))
    decreases |steps|
  {
    if steps != [] {
      InvStep(c, s, steps[0]);
      CommittedGrows(c, s, steps[0]);
      CommittedRun(c, Apply(c, s, steps[0]), steps[1..]);
    }
  }

  // Too few cold batches drain no table, whatever interleaves with them.
  lemma TooFewBatchesTheorem(c: Config, before: seq<Step>, steps: seq<Step>, b: nat)
    requires IsRun(c, INIT, before) && IsRun(c, End(c, INIT, before), steps)
    requires End(c, INIT, before).workers == map[]
    requires ColdOnly(steps, b) && ColdLocks(steps) * b < |Unfinished(End(c, INIT, before).table)|
    ensures Unfinished(End(c, INIT, before).table) * Unfinished(End(c, End(c, INIT, before), steps).table) != {}
  {
    InvRun(c, INIT, before);
    var s := End(c, INIT, before);
    var s' := End(c, s, steps);
    CommittedRun(c, s, steps);
    LocksBoundTheorem(c, before, steps);
    ColdLocksTake(steps, b);
    SomeLeft(s, s');
  }

  lemma SomeLeft(s: State, s': State)
    requires TxInv(s) && TxInv(s') && s.past.committed <= s'.past.committed
    requires |Finished(s') - Finished(s)| < |Unfinished(s.table)|
    ensures Unfinished(s.table) * Unfinished(s'.table) != {}
  {
    var todo := Unfinished(s.table);
    if todo <= Finished(s') {
      assert todo <= Finished(s') - Finished(s);
      SubsetSize(todo, Finished(s') - Finished(s));
    }
    var id :| id in todo && id !in Finished(s');
    assert id in Unfinished(s'.table);
  }

  // ---- A drain in progress can be completed -----------------------------------------------------

  function Rank(k: Worker): nat {
    match k.phase
    case Locked => 4
    case Routed(_) => 3
    case Delivering(_, _, _) => 2
    case Deciding(_, _, _, _) => 1
    case Failing(_) => 0
  }

  function Unposted(c: Config, k: Worker): set<SubscriptionId> {
    if !k.phase.Delivering? then {}
    else set sub | sub in k.phase.subs && NeedsPost(c, k.phase.states, sub) && sub !in k.phase.results
  }

  ghost function AnyOf(subs: set<SubscriptionId>): (sub: SubscriptionId)
    requires subs != {}
    ensures sub in subs
  {
    var sub :| sub in subs;
    sub
  }

  // The next thing pass w does.
  ghost function Next(c: Config, k: Worker, w: WorkerId, lists: Lists): Step {
    match k.phase
    case Locked => Route(w, lists(k.messageId))
    case Routed(subs) => if subs == [] then WriteBack(w, 0) else ReadStates(w)
    case Delivering(_, _, _) =>
      if Unposted(c, k) == {} then Save(w, Stored) else Post(w, AnyOf(Unposted(c, k)), true, Success)
    case Deciding(_, _, _, _) => WriteBack(w, 0)
    case Failing(_) => WriteBack(w, 0)
  }

  // The pass has ended, or has less to do; the others stay where they are.
  ghost predicate Progress(c: Config, workers: map<WorkerId, Worker>, workers': map<WorkerId, Worker>, w: WorkerId)
    requires w in workers
  {
    && workers' - {w} == workers - {w}
    && (w in workers' ==>
          || Rank(workers'[w]) < Rank(workers[w])
          || (Rank(workers'[w]) == Rank(workers[w]) && |Unposted(c, workers'[w])| < |Unposted(c, workers[w])|))
  }

  lemma PhaseProgress(c: Config, workers: map<WorkerId, Worker>, w: WorkerId, p: Phase)
    requires w in workers && Rank(workers[w].(phase := p)) < Rank(workers[w])
    ensures Progress(c, workers, InPhase(workers, w, p), w)
  {
  }

  // The step can be taken, is work, and gets pass w on.
  ghost predicate GetsOn(c: Config, s: State, step: Step, w: WorkerId, lists: Lists) {
    && w in s.workers && Enabled(c, s, step) && WorkStep(s, step, lists)
    && Progress(c, s.workers, Apply(c, s, step).workers, w)
  }

  lemma NextWorks(c: Config, b: State, s: State, w: WorkerId, lists: Lists)
    requires LogInv(c, s) && DrainInv(c, b, s, lists) && w in s.workers && Distinct(lists(s.workers[w].messageId))
    ensures GetsOn(c, s, Next(c, s.workers[w], w, lists), w, lists)
  {
    var k := s.workers[w];
    assert WorkingOn(c, b, s.table, s.log, k, lists) && PassView(c, s.log, k);
    match k.phase
    case Locked => RouteGetsOn(c, s, w, lists);
    case Routed(subs) =>
      if subs == [] {
        WriteBackGetsOn(c, s, w, lists);
      } else {
        ReadGetsOn(c, s, w, lists);
      }
    case Delivering(_, _, _) =>
      if Unposted(c, k) == {} {
        SaveEnabled(c, b, s, w, lists);
        SaveGetsOn(c, s, w, lists);
      } else {
        PostGetsOn(c, s, w, AnyOf(Unposted(c, k)), lists);
      }
    case Deciding(_, _, _, _) => WriteBackGetsOn(c, s, w, lists);
  }

  lemma RouteGetsOn(c: Config, s: State, w: WorkerId, lists: Lists)
    requires w in s.workers && s.workers[w].phase.Locked? && Distinct(lists(s.workers[w].messageId))
    ensures GetsOn(c, s, Route(w, lists(s.workers[w].messageId)), w, lists)
  {
    PhaseProgress(c, s.workers, w, Routed(lists(s.workers[w].messageId)));
  }

  lemma ReadGetsOn(c: Config, s: State, w: WorkerId, lists: Lists)
    requires InPhaseRouted(s, w) && s.workers[w].phase.subs != []
    ensures GetsOn(c, s, ReadStates(w), w, lists)
  {
    var k := s.workers[w];
    PhaseProgress(c, s.workers, w, Delivering(k.phase.subs, States(s.log, k.messageId, k.phase.subs), map[]));
  }

  lemma SaveGetsOn(c: Config, s: State, w: WorkerId, lists: Lists)
    requires InDelivery(s, w) && Enabled(c, s, Save(w, Stored))
    ensures GetsOn(c, s, Save(w, Stored), w, lists)
  {
    var p := s.workers[w].phase;
    PhaseProgress(c, s.workers, w, Deciding(p.subs, p.states, p.results, true));
  }

  lemma PostGetsOn(c: Config, s: State, w: WorkerId, sub: SubscriptionId, lists: Lists)
    requires InDelivery(s, w) && sub in Unposted(c, s.workers[w])
    ensures GetsOn(c, s, Post(w, sub, true, Success), w, lists)
  {
    PostProgress(c, s, w, sub);
  }

  lemma WriteBackGetsOn(c: Config, s: State, w: WorkerId, lists: Lists)
    requires ReadyToWriteBack(s, w)
    ensures GetsOn(c, s, WriteBack(w, 0), w, lists)
  {
    var workers' := s.workers - {w};
    assert workers' - {w} == workers';
  }

  lemma PostProgress(c: Config, s: State, w: WorkerId, sub: SubscriptionId)
    requires InDelivery(s, w) && sub in Unposted(c, s.workers[w])
    ensures Progress(c, s.workers, ApplyPost(s, w, sub, true, Success).workers, w)
  {
    var k := s.workers[w];
    var workers' := ApplyPost(s, w, sub, true, Success).workers;
    assert Unposted(c, workers'[w]) == Unposted(c, k) - {sub};
    assert workers' - {w} == s.workers - {w};
  }

  lemma SaveEnabled(c: Config, b: State, s: State, w: WorkerId, lists: Lists)
    requires LogInv(c, s) && InDelivery(s, w) && Unposted(c, s.workers[w]) == {}
    requires WorkingOn(c, b, s.table, s.log, s.workers[w], lists) && PassView(c, s.log, s.workers[w])
    ensures Enabled(c, s, Save(w, Stored))
  {
    var k := s.workers[w];
    var m, subs, states, results := k.messageId, k.phase.subs, k.phase.states, k.phase.results;
    forall sub | sub in subs && NeedsPost(c, states, sub) ensures sub in results {
      assert sub !in Unposted(c, k);
    }
    StatesKept(b.log, s.log, m, subs, c);
    forall id | id in RowsToSave(k) ensures id !in s.log {
      StateFacts(s.log, m, subs, id.subscriptionId);
      ExactNumbering(s.log, m, id.subscriptionId);
      assert id == DeliveryId(m, id.subscriptionId, id.number);
    }
  }

  // A drain in progress: where it began, and its steps so far.
  ghost predicate Draining(c: Config, before: seq<Step>, steps: seq<Step>, o: LockOptions, lists: Lists) {
    && IsRun(c, INIT, before) && o.tenantFilter.None?
    && var s := End(c, INIT, before);
       && s.workers == map[] && AllDue(s.table, s.now)
       && IsRun(c, s, steps) && DrainSteps(c, s, steps, o, lists)
  }

  ghost function Now(c: Config, before: seq<Step>, steps: seq<Step>): State
    requires IsRun(c, INIT, before) && IsRun(c, End(c, INIT, before), steps)
  {
    End(c, End(c, INIT, before), steps)
  }

  lemma InvariantsNow(c: Config, before: seq<Step>, steps: seq<Step>, o: LockOptions, lists: Lists)
    requires Draining(c, before, steps, o, lists)
    ensures Inv(c, Now(c, before, steps)) && DrainInv(c, End(c, INIT, before), Now(c, before, steps), lists)
  {
    InvRun(c, INIT, before);
    var s := End(c, INIT, before);
    DrainBegins(c, s, lists);
    InvRun(c, s, steps);
    DrainingKeeps(c, s, s, steps, o, lists);
  }

  lemma DrainNext(c: Config, before: seq<Step>, steps: seq<Step>, step: Step, o: LockOptions, lists: Lists)
    requires Draining(c, before, steps, o, lists) && Enabled(c, Now(c, before, steps), step)
    requires var s := Now(c, before, steps);
             if step.ColdLock? then s.workers == map[] && step.options == o && step.skip == {}
             else WorkStep(s, step, lists)
    ensures Draining(c, before, steps + [step], o, lists)
    ensures Now(c, before, steps + [step]) == Apply(c, Now(c, before, steps), step)
    ensures ColdLocks(steps + [step]) == ColdLocks(steps) + if step.ColdLock? then 1 else 0
  {
    OneDrainStep(c, End(c, INIT, before), steps, step, o, lists);
  }

  lemma {:induction false} OneDrainStep(c: Config, s: State, steps: seq<Step>, step: Step, o: LockOptions, lists: Lists)
    requires IsRun(c, s, steps) && DrainSteps(c, s, steps, o, lists) && Enabled(c, End(c, s, steps), step)
    requires if step.ColdLock?
             then End(c, s, steps).workers == map[] && step.options == o && step.skip == {}
             else WorkStep(End(c, s, steps), step, lists)
    ensures IsRun(c, s, steps + [step]) && DrainSteps(c, s, steps + [step], o, lists)
    ensures End(c, s, steps + [step]) == Apply(c, End(c, s, steps), step)
    ensures ColdLocks(steps + [step]) == ColdLocks(steps) + if step.ColdLock? then 1 else 0
    decreases |steps|
  {
    var longer := steps + [step];
    if steps == [] {
      OneStepRuns(c, s, step);
      assert longer == [step] && longer[1..] == [];
    } else {
      assert longer[0] == steps[0] && longer[1..] == steps[1..] + [step];
      OneDrainStep(c, Apply(c, s, steps[0]), steps[1..], step, o, lists);
    }
  }

  // Pass w does its next thing.
  lemma DoNext(c: Config, before: seq<Step>, steps: seq<Step>, w: WorkerId, o: LockOptions, lists: Lists)
    returns (longer: seq<Step>)
    requires Draining(c, before, steps, o, lists) && w in Now(c, before, steps).workers
    requires forall m :: Distinct(lists(m))
    ensures Draining(c, before, longer, o, lists) && ColdLocks(longer) == ColdLocks(steps)
    ensures steps <= longer && Progress(c, Now(c, before, steps).workers, Now(c, before, longer).workers, w)
  {
    var s := Now(c, before, steps);
    InvariantsNow(c, before, steps, o, lists);
    NextWorks(c, End(c, INIT, before), s, w, lists);
    var step := Next(c, s.workers[w], w, lists);
    DrainNext(c, before, steps, step, o, lists);
    longer := steps + [step];
  }

  lemma {:induction false} FinishPass(c: Config, before: seq<Step>, steps: seq<Step>, w: WorkerId, o: LockOptions,
                                      lists: Lists) returns (longer: seq<Step>)
    requires Draining(c, before, steps, o, lists) && w in Now(c, before, steps).workers
    requires forall m :: Distinct(lists(m))
    ensures Draining(c, before, longer, o, lists) && ColdLocks(longer) == ColdLocks(steps)
    ensures steps <= longer && Now(c, before, longer).workers == Now(c, before, steps).workers - {w}
    decreases Rank(Now(c, before, steps).workers[w]), |Unposted(c, Now(c, before, steps).workers[w])|
  {
    longer := DoNext(c, before, steps, w, o, lists);
    if w in Now(c, before, longer).workers {
      longer := FinishPass(c, before, longer, w, o, lists);
    } else {
      assert Now(c, before, longer).workers == Now(c, before, longer).workers - {w};
    }
  }

  lemma {:induction false} FinishAll(c: Config, before: seq<Step>, steps: seq<Step>, o: LockOptions, lists: Lists)
    returns (longer: seq<Step>)
    requires Draining(c, before, steps, o, lists) && forall m :: Distinct(lists(m))
    ensures Draining(c, before, longer, o, lists) && ColdLocks(longer) == ColdLocks(steps)
    ensures steps <= longer && Now(c, before, longer).workers == map[]
    decreases Now(c, before, steps).workers.Keys
  {
    longer := steps;
    var workers := Now(c, before, steps).workers;
    if workers.Keys == {} {
      assert workers == map[];
    } else {
      var w :| w in workers;
      longer := FinishPass(c, before, steps, w, o, lists);
      assert Now(c, before, longer).workers.Keys == workers.Keys - {w};
      longer := FinishAll(c, before, longer, o, lists);
    }
  }

  // ---- A drain of any number of batches exists ----------------------------------------------------

  // Pass ids that were never used, one for each message.
  lemma {:induction false} NumberPasses(ids: set<MessageId>, base: nat) returns (passes: map<WorkerId, MessageId>)
    ensures passes.Values == ids && Injective(passes)
    ensures forall w :: w in passes ==> w >= base
    decreases ids
  {
    if ids == {} {
      passes := map[];
    } else {
      var id :| id in ids;
      var rest := NumberPasses(ids - {id}, base + 1);
      passes := rest[base := id];
      assert forall w :: w in rest ==> rest[w] in rest.Values;
      assert passes.Values == rest.Values + {id} by {
        assert passes[base] == id;
        forall v | v in rest.Values ensures v in passes.Values {
          var w :| w in rest && rest[w] == v;
          assert passes[w] == v;
        }
      }
    }
  }

  lemma {:induction false} Unused(started: set<WorkerId>) returns (base: nat)
    ensures forall w :: w in started ==> w < base
    decreases started
  {
    if started == {} {
      base := 0;
    } else {
      var w :| w in started;
      var rest := Unused(started - {w});
      base := if rest > w then rest else w + 1;
      assert forall v :: v in started ==> v == w || v in started - {w};
    }
  }

  lemma LockBatch(c: Config, s: State, instance: InstanceId, o: LockOptions) returns (step: Step)
    requires Inv(c, s) && AllDue(s.table, s.now) && o.tenantFilter.None?
    ensures step.ColdLock? && step.options == o && step.skip == {} && Enabled(c, s, step)
  {
    EveryoneIsCandidate(s.table, o, s.now);
    var picked := BatchExists(s.table, Unfinished(s.table), o.batchSize);
    var base := Unused(s.past.lockedAs.Keys);
    var passes := NumberPasses(picked, base);
    step := ColdLock(instance, o, {}, passes);
  }

  // One more batch, run to its end.
  lemma OneMoreBatch(c: Config, before: seq<Step>, steps: seq<Step>, instance: InstanceId, o: LockOptions, lists: Lists)
    returns (longer: seq<Step>)
    requires Draining(c, before, steps, o, lists) && Now(c, before, steps).workers == map[]
    requires forall m :: Distinct(lists(m))
    ensures Draining(c, before, longer, o, lists) && ColdLocks(longer) == ColdLocks(steps) + 1
    ensures Now(c, before, longer).workers == map[]
  {
    InvariantsNow(c, before, steps, o, lists);
    StillDue(c, End(c, INIT, before), Now(c, before, steps), lists);
    var step := LockBatch(c, Now(c, before, steps), instance, o);
    DrainNext(c, before, steps, step, o, lists);
    longer := FinishAll(c, before, steps + [step], o, lists);
  }

  lemma {:induction false} Batches(c: Config, before: seq<Step>, instance: InstanceId, o: LockOptions, lists: Lists,
                                   k: nat)
    returns (steps: seq<Step>)
    requires Draining(c, before, [], o, lists) && forall m :: Distinct(lists(m))
    ensures Draining(c, before, steps, o, lists) && ColdLocks(steps) == k
    ensures Now(c, before, steps).workers == map[]
    decreases k
  {
    steps := [];
    if k > 0 {
      steps := Batches(c, before, instance, o, lists, k - 1);
      steps := OneMoreBatch(c, before, steps, instance, o, lists);
    }
  }

  // From any reachable state with no pass in flight and everything due there is a draining run
  // of k batches, for every k; what such a run comes to is EveryDrainTheorem.
  lemma DrainTheorem(c: Config, before: seq<Step>, instance: InstanceId, o: LockOptions, lists: Lists, k: nat)
    returns (steps: seq<Step>, taken: set<MessageId>, s': State)
    requires IsRun(c, INIT, before)
    requires var s := End(c, INIT, before); s.workers == map[] && AllDue(s.table, s.now)
    requires o.tenantFilter.None? && forall m :: Distinct(lists(m))
    ensures var s := End(c, INIT, before);
            && IsRun(c, s, steps) && DrainSteps(c, s, steps, o, lists)
            && ColdLocks(steps) == k && s' == End(c, s, steps)
            && taken == Unfinished(s.table) - Unfinished(s'.table)
            && BatchResult(c, s, s', taken, lists)
            && (Unfinished(s'.table) == {} <==> k * o.batchSize >= |Unfinished(s.table)|)
  {
    steps := Batches(c, before, instance, o, lists, k);
    s' := Now(c, before, steps);
    taken := Unfinished(End(c, INIT, before).table) - Unfinished(s'.table);
    EveryDrainTheorem(c, before, steps, o, lists);
  }

  // A drain stopped anywhere can be completed: every draining run has a continuation, without
  // another batch, that ends all its passes.
  lemma DrainsCompleteTheorem(c: Config, before: seq<Step>, steps: seq<Step>, o: LockOptions, lists: Lists)
    returns (longer: seq<Step>)
    requires Draining(c, before, steps, o, lists) && forall m :: Distinct(lists(m))
    ensures steps <= longer && Draining(c, before, longer, o, lists) && ColdLocks(longer) == ColdLocks(steps)
    ensures Now(c, before, longer).workers == map[]
  {
    longer := FinishAll(c, before, steps, o, lists);
  }
}
