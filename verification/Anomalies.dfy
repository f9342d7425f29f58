// Runs that go wrong. Without (H), one instance that locks a message again while a pass of its
// own on it is still active loses both mutual exclusion and the retry budget. With (H), two
// instances still deliver one message twice when the first outlives its lease.

module Anomalies {
  import opened OutboxTypes
  import opened MessageTable
  import opened AttemptTable
  import opened Delivery
  import opened Protocol
  import opened Leases

  // One retry allowed; one message, 0; one subscription, 7.
  const ONE_RETRY: Config := Config(_ => 0, 1)

  // What a run has led to. `exclusive` says that it respected (H).
  datatype View = View(
    now: Instant,
    row: Message,
    log: AttemptLog,
    workers: map<WorkerId, Worker>,
    started: set<WorkerId>,
    accepted: set<(WorkerId, DeliveryId)>,
    exclusive: bool)

  ghost predicate LedTo(steps: seq<Step>, v: View) {
    && IsRun(ONE_RETRY, INIT, steps)
    && var s := End(ONE_RETRY, INIT, steps);
       && s.now == v.now && s.table == map[0 := v.row] && s.log == v.log && s.workers == v.workers
       && s.past.lockedAs.Keys == v.started && s.past.accepted == v.accepted
       && (v.exclusive ==> ExclusiveRun(ONE_RETRY, INIT, steps))
  }

  lemma Extend(steps: seq<Step>, step: Step) returns (longer: seq<Step>)
    requires IsRun(ONE_RETRY, INIT, steps) && Enabled(ONE_RETRY, End(ONE_RETRY, INIT, steps), step)
    ensures IsRun(ONE_RETRY, INIT, longer)
    ensures End(ONE_RETRY, INIT, longer) == Apply(ONE_RETRY, End(ONE_RETRY, INIT, steps), step)
    ensures ExclusiveRun(ONE_RETRY, INIT, steps) && Exclusive(End(ONE_RETRY, INIT, steps), step)
            ==> ExclusiveRun(ONE_RETRY, INIT, longer)
  {
    OneStepMore(ONE_RETRY, INIT, steps, step);
    longer := steps + [step];
  }

  lemma Publish() returns (steps: seq<Step>, v: View)
    ensures v == View(0, NewMessage("order", PartitionKey(None, None, None), 0), map[], map[], {}, {}, true)
    ensures LedTo(steps, v)
  {
    steps := Extend([], Insert(0, "order", PartitionKey(None, None, None)));
    steps := Extend(steps, Commit(0));
    v := View(0, NewMessage("order", PartitionKey(None, None, None), 0), map[], map[], {}, {}, true);
  }

  function Started(v: View, w: WorkerId, instance: InstanceId, visibility: int): View {
    var until := v.now + visibility;
    v.(row := Lock(v.row, instance, until),
       workers := v.workers[w := Worker(instance, 0, until, v.row.retryCount, Locked)],
       started := v.started + {w},
       exclusive := v.exclusive && forall u :: u in v.workers ==> v.workers[u].instance != instance)
  }

  lemma LockIt(steps: seq<Step>, v: View, w: WorkerId, instance: InstanceId, visibility: int)
    returns (longer: seq<Step>)
    requires LedTo(steps, v) && w !in v.started && HotEligible(v.row, v.now)
    ensures LedTo(longer, Started(v, w, instance, visibility))
  {
    longer := Extend(steps, HotLock(w, instance, 0, visibility));
  }

  function Moved(v: View, w: WorkerId, p: Phase): View
    requires w in v.workers
  {
    v.(workers := InPhase(v.workers, w, p))
  }

  lemma RouteIt(steps: seq<Step>, v: View, w: WorkerId) returns (longer: seq<Step>)
    requires LedTo(steps, v) && w in v.workers && v.workers[w].phase == Locked
    ensures LedTo(longer, Moved(v, w, Routed([7])))
  {
    longer := Extend(steps, Route(w, [7]));
  }

  // The pass finds the attempt states unreadable, and has yet to write that back.
  lemma MeetError(steps: seq<Step>, v: View, w: WorkerId) returns (longer: seq<Step>)
    requires LedTo(steps, v) && w in v.workers && v.workers[w].phase == Locked
    ensures LedTo(longer, Moved(v, w, Failing(StatesUnreadable)))
  {
    longer := RouteIt(steps, v, w);
    longer := Extend(longer, FailReading(w));
    assert Moved(Moved(v, w, Routed([7])), w, Failing(StatesUnreadable)) == Moved(v, w, Failing(StatesUnreadable));
  }

  lemma ScheduleRetry(steps: seq<Step>, v: View, w: WorkerId, nextRetryAt: Instant) returns (longer: seq<Step>)
    requires LedTo(steps, v)
    requires w in v.workers && v.workers[w].phase.Failing? && v.workers[w].messageId == 0
    requires v.workers[w].retrySnapshot == 0 && v.row.lockedBy == Some(v.workers[w].instance)
    ensures LedTo(longer, v.(row := Rescheduled(v.row, nextRetryAt), workers := v.workers - {w}))
  {
    longer := Extend(steps, WriteBack(w, nextRetryAt));
  }

  lemma ExpireAndRelease(steps: seq<Step>, v: View, later: Instant) returns (longer: seq<Step>)
    requires LedTo(steps, v) && later >= v.now && Expired(v.row, later)
    ensures LedTo(longer, v.(now := later, row := Unlock(v.row, Pending)))
  {
    longer := Extend(steps, Tick(later));
    longer := Extend(longer, Release);
  }

  // ---- Without (H) ------------------------------------------------------------------------

  // The view once pass 0 has overrun and pass 1 has locked the row under the same instance.
  function Overrun(): View {
    View(2, Lock(NewMessage("order", PartitionKey(None, None, None), 0), "A", 12), map[],
         map[0 := Worker("A", 0, 1, 0, Failing(StatesUnreadable)), 1 := Worker("A", 0, 12, 0, Locked)],
         {0, 1}, {}, false)
  }

  // What pass 0 leaves when its lease ends: an error to write back, and the row released.
  function Expired0(): View {
    var published := View(0, NewMessage("order", PartitionKey(None, None, None), 0), map[], map[], {}, {}, true);
    var first := Started(published, 0, "A", 1);
    Moved(first, 0, Failing(StatesUnreadable)).(now := 2, row := Unlock(first.row, Pending))
  }

  lemma MissLease() returns (steps: seq<Step>)
    ensures LedTo(steps, Expired0())
  {
    var v;
    steps, v := Publish();
    steps := LockIt(steps, v, 0, "A", 1);
    v := Started(v, 0, "A", 1);
    steps := MeetError(steps, v, 0);
    v := Moved(v, 0, Failing(StatesUnreadable));
    steps := ExpireAndRelease(steps, v, 2);
  }

  lemma OverrunIs()
    ensures Started(Expired0(), 1, "A", 10) == Overrun()
  {
    var before := Expired0();
    assert before.workers == map[0 := Worker("A", 0, 1, 0, Failing(StatesUnreadable))];
    assert 0 in before.workers && before.workers[0].instance == "A";
    assert before.workers[1 := Worker("A", 0, 12, 0, Locked)] == Overrun().workers;
  }

  lemma OverrunByOwn() returns (steps: seq<Step>)
    ensures LedTo(steps, Overrun())
  {
    steps := MissLease();
    steps := LockIt(steps, Expired0(), 1, "A", 10);
    OverrunIs();
  }

  // Pass 0's late write-back lands on pass 1's lock and frees the row. While pass 1 still has
  // time, pass 2 locks it: both hold an unexpired lease.
  function TwoLive(): View {
    View(2, Lock(Rescheduled(Overrun().row, 2), "A", 12), map[],
         map[1 := Worker("A", 0, 12, 0, Locked), 2 := Worker("A", 0, 12, 1, Locked)], {0, 1, 2}, {}, false)
  }

  function Freed(): View {
    Overrun().(row := Rescheduled(Overrun().row, 2), workers := map[1 := Worker("A", 0, 12, 0, Locked)])
  }

  lemma TwoLiveIs()
    ensures Started(Freed(), 2, "A", 10) == TwoLive()
  {
  }

  lemma LateWriteBack() returns (steps: seq<Step>)
    ensures LedTo(steps, TwoLive())
  {
    steps := OverrunByOwn();
    steps := ScheduleRetry(steps, Overrun(), 0, 2);
    assert Overrun().workers - {0} == Freed().workers;
    steps := LockIt(steps, Freed(), 2, "A", 10);
    TwoLiveIs();
  }

  lemma SharedInstanceLosesExclusion() returns (steps: seq<Step>)
    ensures IsRun(ONE_RETRY, INIT, steps)
    ensures var s := End(ONE_RETRY, INIT, steps);
            && 1 in s.workers && 2 in s.workers
            && s.workers[1].messageId == s.workers[2].messageId == 0
            && s.workers[1].leaseEnd >= s.now && s.workers[2].leaseEnd >= s.now
  {
    steps := LateWriteBack();
  }

  // From there pass 1 writes its retry back too, on pass 2's lock: two retries are spent of
  // the one the policy allows.
  lemma SharedInstanceOverspends() returns (steps: seq<Step>)
    ensures IsRun(ONE_RETRY, INIT, steps)
    ensures var s := End(ONE_RETRY, INIT, steps);
            0 in s.table && s.table[0].retryCount == 2 && Budget(ONE_RETRY) == 1
  {
    var v := TwoLive();
    steps := LateWriteBack();
    steps := MeetError(steps, v, 1);
    v := Moved(v, 1, Failing(StatesUnreadable));
    steps := ScheduleRetry(steps, v, 1, 2);
  }

  // ---- With (H) ---------------------------------------------------------------------------

  function Delivered(v: View, w: WorkerId): View
    requires w in v.workers
  {
    Moved(v, w, Delivering([7], map[], map[7 := Success])).(accepted := v.accepted + {(w, DeliveryId(0, 7, 1))})
  }

  lemma ReadRouted(steps: seq<Step>, v: View, w: WorkerId) returns (longer: seq<Step>)
    requires LedTo(steps, v) && v.log == map[]
    requires w in v.workers && v.workers[w].phase == Routed([7]) && v.workers[w].messageId == 0
    ensures LedTo(longer, Moved(v, w, Delivering([7], map[], map[])))
  {
    EmptyStates(0, [7]);
    longer := Extend(steps, ReadStates(w));
  }

  lemma PostRead(steps: seq<Step>, v: View, w: WorkerId) returns (longer: seq<Step>)
    requires LedTo(steps, v) && w in v.workers && v.workers[w].messageId == 0
    requires v.workers[w].phase == Delivering([7], map[], map[])
    ensures LedTo(longer, Delivered(v, w))
  {
    longer := Extend(steps, Post(w, 7, true, Success));
  }

  lemma DeliverIt(steps: seq<Step>, v: View, w: WorkerId) returns (longer: seq<Step>)
    requires LedTo(steps, v) && v.log == map[]
    requires w in v.workers && v.workers[w].phase == Locked && v.workers[w].messageId == 0
    ensures LedTo(longer, Delivered(v, w))
  {
    var routed := Moved(v, w, Routed([7]));
    var read := Moved(routed, w, Delivering([7], map[], map[]));
    longer := RouteIt(steps, v, w);
    longer := ReadRouted(longer, routed, w);
    longer := PostRead(longer, read, w);
    assert Delivered(read, w).workers == Delivered(v, w).workers;
  }

  lemma EmptyStates(m: MessageId, subs: seq<SubscriptionId>)
    ensures States(map[], m, subs) == map[]
  {
  }

  // Instance "A" outlives its lease between its POST and its save; "B" takes the message over
  // and its receiver accepts the same id once more.
  lemma TwoInstancesDeliverTwice() returns (steps: seq<Step>)
    ensures IsRun(ONE_RETRY, INIT, steps) && ExclusiveRun(ONE_RETRY, INIT, steps)
    ensures var s := End(ONE_RETRY, INIT, steps);
            && (0, DeliveryId(0, 7, 1)) in s.past.accepted && (1, DeliveryId(0, 7, 1)) in s.past.accepted
            && 0 in s.workers && 1 in s.workers && s.workers[0].instance == "A" && s.workers[1].instance == "B"
  {
    var v;
    steps, v := Publish();
    steps := LockIt(steps, v, 0, "A", 1);
    v := Started(v, 0, "A", 1);
    steps := DeliverIt(steps, v, 0);
    v := Delivered(v, 0);
    steps := ExpireAndRelease(steps, v, 2);
    v := v.(now := 2, row := Unlock(v.row, Pending));
    steps := LockIt(steps, v, 1, "B", 10);
    v := Started(v, 1, "B", 10);
    steps := DeliverIt(steps, v, 1);
  }

  // Both passes read before either posts: at each read every POST made has its row, and still
  // both end accepted under one id.
  lemma BothReadFirst() returns (steps: seq<Step>)
    ensures IsRun(ONE_RETRY, INIT, steps) && ExclusiveRun(ONE_RETRY, INIT, steps)
    ensures var s := End(ONE_RETRY, INIT, steps);
            s.past.accepted == {(0, DeliveryId(0, 7, 1)), (1, DeliveryId(0, 7, 1))}
  {
    var v;
    steps, v := Publish();
    steps := LockIt(steps, v, 0, "A", 1);
    v := Started(v, 0, "A", 1);
    steps := RouteIt(steps, v, 0);
    v := Moved(v, 0, Routed([7]));
    steps := ExpireAndRelease(steps, v, 2);
    v := v.(now := 2, row := Unlock(v.row, Pending));
    steps := LockIt(steps, v, 1, "B", 10);
    v := Started(v, 1, "B", 10);
    steps := RouteIt(steps, v, 1);
    v := Moved(v, 1, Routed([7]));
    steps := BothReadThenPost(steps, v);
  }

  lemma BothReadThenPost(steps: seq<Step>, v: View) returns (longer: seq<Step>)
    requires LedTo(steps, v) && v.log == map[] && v.exclusive && v.accepted == {}
    requires 0 in v.workers && v.workers[0].phase == Routed([7]) && v.workers[0].messageId == 0
    requires 1 in v.workers && v.workers[1].phase == Routed([7]) && v.workers[1].messageId == 0
    ensures IsRun(ONE_RETRY, INIT, longer) && ExclusiveRun(ONE_RETRY, INIT, longer)
    ensures End(ONE_RETRY, INIT, longer).past.accepted == {(0, DeliveryId(0, 7, 1)), (1, DeliveryId(0, 7, 1))}
  {
    longer := ReadRouted(steps, v, 0);
    var read := Moved(v, 0, Delivering([7], map[], map[]));
    longer := ReadRouted(longer, read, 1);
    read := Moved(read, 1, Delivering([7], map[], map[]));
    longer := PostRead(longer, read, 0);
    longer := PostRead(longer, Delivered(read, 0), 1);
  }

  // An instance name for each of any number of instances.
  function Name(k: nat): InstanceId {
    seq(k + 1, _ => 'i')
  }

  // k passes have posted the id, none of them saved it, and the row is free again.
  ghost predicate PostedTimes(v: View, k: nat) {
    && v.exclusive && v.log == map[] && HotEligible(v.row, v.now)
    && (forall w :: w in v.started ==> w < k)
    && (forall u :: u in v.workers ==> |v.workers[u].instance| <= k)
    && (forall w: WorkerId :: w < k ==> (w, DeliveryId(0, 7, 1)) in v.accepted)
  }

  function OnceMore(v: View, k: nat): View {
    var locked := Started(v, k, Name(k), 1);
    Delivered(locked, k).(now := v.now + 2, row := Unlock(locked.row, Pending))
  }

  lemma OnceMoreIs(v: View, k: nat)
    requires PostedTimes(v, k)
    ensures PostedTimes(OnceMore(v, k), k + 1)
  {
  }

  lemma DeliverOnceMore(steps: seq<Step>, v: View, k: nat) returns (longer: seq<Step>)
    requires LedTo(steps, v) && PostedTimes(v, k)
    ensures LedTo(longer, OnceMore(v, k))
  {
    var locked := Started(v, k, Name(k), 1);
    longer := LockIt(steps, v, k, Name(k), 1);
    longer := DeliverIt(longer, locked, k);
    longer := ExpireAndRelease(longer, Delivered(locked, k), v.now + 2);
  }

  // One id can be accepted any number of times, also under (H): each of k instances outlives
  // its lease between its POST and its save.
  lemma {:induction false} AnyNumberOfTimes(k: nat) returns (steps: seq<Step>, v: View)
    ensures LedTo(steps, v) && PostedTimes(v, k)
  {
    if k == 0 {
      steps, v := Publish();
    } else {
      steps, v := AnyNumberOfTimes(k - 1);
      steps := DeliverOnceMore(steps, v, k - 1);
      OnceMoreIs(v, k - 1);
      v := OnceMore(v, k - 1);
    }
  }

  // The documented worst case, two deliveries, is none.
  lemma NoWorstCase(k: nat) returns (steps: seq<Step>)
    ensures IsRun(ONE_RETRY, INIT, steps) && ExclusiveRun(ONE_RETRY, INIT, steps)
    ensures forall w: WorkerId :: w < k ==> (w, DeliveryId(0, 7, 1)) in End(ONE_RETRY, INIT, steps).past.accepted
  {
    var v;
    steps, v := AnyNumberOfTimes(k);
  }

  // ---- Dead-lettered though a subscription was delivered to ---------------------------------------

  const TWO_ROWS: AttemptLog := map[DeliveryId(0, 7, 1) := Failure, DeliveryId(0, 8, 1) := Success]
  const TWO_RESULTS: ResultMap := map[7 := Failure, 8 := Success]
  const TWO_STATES: StateMap := map[7 := DeliveryState(1, false), 8 := DeliveryState(1, true)]

  lemma TwoNewRows()
    ensures NewRows(0, map[], TWO_RESULTS) == TWO_ROWS
  {
    assert forall id :: id in NewRows(0, map[], TWO_RESULTS) <==> id in TWO_ROWS;
  }

  lemma TwoStates()
    ensures States(TWO_ROWS, 0, [7, 8]) == TWO_STATES
  {
    assert RowsOf(TWO_ROWS, 0, 7) == {DeliveryId(0, 7, 1)};
    assert RowsOf(TWO_ROWS, 0, 8) == {DeliveryId(0, 8, 1)};
    assert HasSuccess(TWO_ROWS, 0, 8) by {
      assert TWO_ROWS[DeliveryId(0, 8, 1)] == Success;
    }
  }

  lemma Verdicts(k: Worker)
    ensures k.phase == Deciding([7, 8], map[], TWO_RESULTS, true) && k.retrySnapshot == 0 ==>
          VerdictOf(ONE_RETRY, k) == Retry
    ensures k.phase == Deciding([7, 8], TWO_STATES, map[], true) ==> VerdictOf(ONE_RETRY, k) == DeadLetter
  {
    DecisionMeaning(ONE_RETRY, [7, 8], map[], TWO_RESULTS, true, k.retrySnapshot);
    DecisionMeaning(ONE_RETRY, [7, 8], TWO_STATES, map[], true, k.retrySnapshot);
    assert 7 in [7, 8] && SlotOf(ONE_RETRY, map[], TWO_RESULTS, 7) == FailedNow;
    assert 7 in [7, 8] && SlotOf(ONE_RETRY, TWO_STATES, map[], 7) == Exhausted;
  }

  lemma RouteBoth(steps: seq<Step>, v: View, w: WorkerId) returns (longer: seq<Step>)
    requires LedTo(steps, v) && w in v.workers && v.workers[w].phase == Locked && v.workers[w].messageId == 0
    ensures LedTo(longer, Moved(v, w, Delivering([7, 8], States(v.log, 0, [7, 8]), map[])))
  {
    longer := Extend(steps, Route(w, [7, 8]));
    longer := Extend(longer, ReadStates(w));
    var read := Delivering([7, 8], States(v.log, 0, [7, 8]), map[]);
    assert Moved(Moved(v, w, Routed([7, 8])), w, read) == Moved(v, w, read);
  }

  function HalfPosted(v: View, w: WorkerId): View
    requires w in v.workers
  {
    Moved(v, w, Delivering([7, 8], map[], map[7 := Failure]))
  }

  function BothPosted(v: View, w: WorkerId): View
    requires w in v.workers
  {
    Moved(v, w, Delivering([7, 8], map[], TWO_RESULTS)).(accepted := v.accepted + {(w, DeliveryId(0, 8, 1))})
  }

  lemma PostSeven(steps: seq<Step>, v: View, w: WorkerId) returns (longer: seq<Step>)
    requires LedTo(steps, v) && w in v.workers && v.workers[w].messageId == 0
    requires v.workers[w].phase == Delivering([7, 8], map[], map[])
    ensures LedTo(longer, HalfPosted(v, w))
  {
    longer := Extend(steps, Post(w, 7, false, Failure));
  }

  lemma PostEight(steps: seq<Step>, v: View, w: WorkerId) returns (longer: seq<Step>)
    requires LedTo(steps, v) && w in v.workers && v.workers[w].messageId == 0
    requires v.workers[w].phase == Delivering([7, 8], map[], map[7 := Failure])
    ensures LedTo(longer, BothPosted(v, w))
  {
    longer := Extend(steps, Post(w, 8, true, Success));
    assert map[7 := Failure][8 := Success] == TWO_RESULTS;
  }

  lemma PostBoth(steps: seq<Step>, v: View, w: WorkerId) returns (longer: seq<Step>)
    requires LedTo(steps, v) && w in v.workers && v.workers[w].messageId == 0
    requires v.workers[w].phase == Delivering([7, 8], map[], map[])
    ensures LedTo(longer, BothPosted(v, w))
  {
    longer := PostSeven(steps, v, w);
    longer := PostEight(longer, HalfPosted(v, w), w);
    assert BothPosted(HalfPosted(v, w), w).workers == BothPosted(v, w).workers;
  }

  lemma SaveIt(steps: seq<Step>, v: View, w: WorkerId, rows: AttemptLog) returns (longer: seq<Step>)
    requires LedTo(steps, v) && w in v.workers && v.workers[w].messageId == 0 && v.workers[w].phase.Delivering?
    requires var p := v.workers[w].phase;
             && PassComplete(ONE_RETRY, p.subs, p.states, p.results)
             && NewRows(0, p.states, p.results) == rows && Insertable(v.log, rows, {0})
    ensures var p := v.workers[w].phase;
            LedTo(longer, Moved(v, w, Deciding(p.subs, p.states, p.results, true)).(log := v.log + rows))
  {
    longer := Extend(steps, Save(w, Stored));
  }

  lemma BothComplete()
    ensures PassComplete(ONE_RETRY, [7, 8], map[], TWO_RESULTS) && Insertable(map[], TWO_ROWS, {0})
    ensures NewRows(0, map[], TWO_RESULTS) == TWO_ROWS && map[] + TWO_ROWS == TWO_ROWS
  {
    TwoNewRows();
    assert NeedsPost(ONE_RETRY, map[], 7) && NeedsPost(ONE_RETRY, map[], 8);
  }

  lemma NoneComplete()
    ensures PassComplete(ONE_RETRY, [7, 8], TWO_STATES, map[])
    ensures NewRows(0, TWO_STATES, map[]) == map[] && TWO_ROWS + map[] == TWO_ROWS
  {
    assert NewRows(0, TWO_STATES, map[]) == map[];
  }

  lemma WriteItBack(steps: seq<Step>, v: View, w: WorkerId, verdict: Verdict) returns (longer: seq<Step>)
    requires LedTo(steps, v) && w in v.workers && v.workers[w].phase.Deciding? && v.workers[w].messageId == 0
    requires VerdictOf(ONE_RETRY, v.workers[w]) == verdict && verdict != Abandon
    requires v.row.lockedBy == Some(v.workers[w].instance)
    ensures LedTo(longer, v.(row := RowAfter(v.row, verdict, v.now, 0), workers := v.workers - {w}))
  {
    longer := Extend(steps, WriteBack(w, 0));
  }

  // The first pass fails 7 and delivers 8; a retry is written.
  lemma FirstPosts() returns (steps: seq<Step>, v: View)
    ensures LedTo(steps, v) && v.log == map[] && v.now == 0 && v.started == {0} && v.workers.Keys == {0}
    ensures v.workers[0] == Worker("A", 0, 10, 0, Delivering([7, 8], map[], TWO_RESULTS))
    ensures v.row == Lock(NewMessage("order", PartitionKey(None, None, None), 0), "A", 10)
  {
    steps, v := Publish();
    steps := LockIt(steps, v, 0, "A", 10);
    v := Started(v, 0, "A", 10);
    EmptyStates(0, [7, 8]);
    steps := RouteBoth(steps, v, 0);
    v := Moved(v, 0, Delivering([7, 8], map[], map[]));
    steps := PostBoth(steps, v, 0);
    v := BothPosted(v, 0);
  }

  lemma FirstPass() returns (steps: seq<Step>, v: View)
    ensures LedTo(steps, v) && v.log == TWO_ROWS && v.now == 0 && v.workers == map[] && v.started == {0}
    ensures HotEligible(v.row, 0)
  {
    steps, v := FirstPosts();
    BothComplete();
    steps := SaveIt(steps, v, 0, TWO_ROWS);
    v := Moved(v, 0, Deciding([7, 8], map[], TWO_RESULTS, true)).(log := TWO_ROWS);
    Verdicts(v.workers[0]);
    steps := WriteItBack(steps, v, 0, Retry);
    v := v.(row := Rescheduled(v.row, 0), workers := v.workers - {0});
  }

  lemma SecondRead() returns (steps: seq<Step>, v: View)
    ensures LedTo(steps, v) && v.log == TWO_ROWS && 1 in v.workers && v.row.lockedBy == Some("A")
    ensures v.workers[1].messageId == 0 && v.workers[1].instance == "A"
    ensures v.workers[1].phase == Delivering([7, 8], TWO_STATES, map[])
  {
    steps, v := FirstPass();
    steps := LockIt(steps, v, 1, "A", 10);
    v := Started(v, 1, "A", 10);
    TwoStates();
    steps := RouteBoth(steps, v, 1);
    v := Moved(v, 1, Delivering([7, 8], TWO_STATES, map[]));
  }

  lemma SecondSave() returns (steps: seq<Step>, v: View)
    ensures LedTo(steps, v) && v.log == TWO_ROWS && 1 in v.workers && v.row.lockedBy == Some("A")
    ensures v.workers[1].messageId == 0 && v.workers[1].instance == "A"
    ensures v.workers[1].phase == Deciding([7, 8], TWO_STATES, map[], true)
  {
    steps, v := SecondRead();
    NoneComplete();
    steps := SaveIt(steps, v, 1, map[]);
    v := Moved(v, 1, Deciding([7, 8], TWO_STATES, map[], true)).(log := TWO_ROWS);
  }

  lemma SecondPass() returns (steps: seq<Step>, v: View)
    ensures LedTo(steps, v) && v.log == TWO_ROWS && v.row.status == DeadLettered
  {
    steps, v := SecondSave();
    Verdicts(v.workers[1]);
    steps := WriteItBack(steps, v, 1, DeadLetter);
    v := v.(row := Unlock(v.row, DeadLettered), workers := v.workers - {1});
  }

  lemma OneSucceeded()
    ensures HasSuccess(TWO_ROWS, 0, 8) && !HasSuccess(TWO_ROWS, 0, 7)
  {
    assert TWO_ROWS[DeliveryId(0, 8, 1)] == Success;
  }

  // The next pass finds 7 exhausted and 8 delivered, and dead-letters the message.
  lemma DeadLetteredThoughDelivered() returns (steps: seq<Step>)
    ensures IsRun(ONE_RETRY, INIT, steps)
    ensures var s := End(ONE_RETRY, INIT, steps);
            && 0 in s.table && s.table[0].status == DeadLettered
            && HasSuccess(s.log, 0, 8) && !HasSuccess(s.log, 0, 7)
  {
    var v;
    steps, v := SecondPass();
    OneSucceeded();
  }
}
