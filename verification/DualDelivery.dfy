// Two passes and one delivery id: exactly when both POST it, and how often an id or a pair can
// be POSTed at all.

module DualDelivery {
  import opened OutboxTypes
  import opened MessageTable
  import opened AttemptTable
  import opened Delivery
  import opened Protocol
  import opened Conservation
  import opened AttemptInvariant
  import opened Soundness
  import opened Reachability
  import opened Idempotency
  import opened Redelivery

  // ---- Who posted what ------------------------------------------------------------------------

  type PostMade = (WorkerId, DeliveryId)

  function Posts(past: History): set<PostMade> {
    past.accepted + past.failed
  }

  // A POST was made by a pass on its message, for a subscription the pass has not posted to
  // under another id, after the pass had read its states.
  ghost predicate PostOk(past: History, workers: map<WorkerId, Worker>, p: PostMade) {
    && p.0 in past.lockedAs && past.lockedAs[p.0].messageId == p.1.messageId
    && (p.0 in workers ==>
          var phase := workers[p.0].phase;
          || phase.Deciding? || phase.Failing?
          || (phase.Delivering? && p.1.subscriptionId in phase.results
              && p.1 == NextId(p.1.messageId, phase.states, p.1.subscriptionId)))
  }

  ghost predicate OneIdEach(past: History) {
    forall p, q :: p in Posts(past) && q in Posts(past) && p.0 == q.0 && p.1.subscriptionId == q.1.subscriptionId ==>
      p == q
  }

  ghost predicate PostsInv(s: State) {
    OneIdEach(s.past) && forall p :: p in Posts(s.past) ==> PostOk(s.past, s.workers, p)
  }

  lemma PostStaysOk(c: Config, s: State, step: Step, p: PostMade)
    requires PostOk(s.past, s.workers, p) && Enabled(c, s, step)
    ensures PostOk(Apply(c, s, step).past, Apply(c, s, step).workers, p)
  {
    match step
    case ColdLock(instance, o, skip, passes) => ColdLockTakes(c, s, instance, o, skip, passes);
    case _ =>
  }

  lemma PostsStep(c: Config, s: State, step: Step)
    requires PostInv(s) && PostsInv(s) && Enabled(c, s, step)
    ensures PostsInv(Apply(c, s, step))
  {
    if step.Post? {
      PostsPost(c, s, step.w, step.subscription, step.acceptedByReceiver, step.result);
    } else {
      PostsFrame(c, s, step);
      var s' := Apply(c, s, step);
      forall p | p in Posts(s'.past) ensures PostOk(s'.past, s'.workers, p) {
        PostStaysOk(c, s, step, p);
      }
    }
  }

  lemma PostsPost(c: Config, s: State, w: WorkerId, sub: SubscriptionId, acceptedByReceiver: bool,
                  result: AttemptStatus)
    requires PostInv(s) && PostsInv(s) && Enabled(c, s, Post(w, sub, acceptedByReceiver, result))
    ensures PostsInv(Apply(c, s, Post(w, sub, acceptedByReceiver, result)))
  {
    var s' := ApplyPost(s, w, sub, acceptedByReceiver, result);
    var made := (w, NextId(s.workers[w].messageId, s.workers[w].phase.states, sub));
    assert PostsTrue(s.past, w, s.workers[w]);
    forall p | p in Posts(s'.past) ensures p in Posts(s.past) || p == made {
    }
    forall p | p in Posts(s.past) ensures !(p.0 == w && p.1.subscriptionId == sub) {
      assert PostOk(s.past, s.workers, p);
    }
    forall p | p in Posts(s'.past) ensures PostOk(s'.past, s'.workers, p) {
      if p in Posts(s.past) {
        assert PostOk(s.past, s.workers, p);
      }
    }
  }

  lemma {:induction false} PostsRun(c: Config, s: State, steps: seq<Step>)
    requires Inv(c, s) && PostsInv(s) && IsRun(c, s, steps)
    ensures Inv(c, End(c, s, steps)) && PostsInv(End(c, s, steps))
    decreases |steps|
  {
    if steps != [] {
      InvStep(c, s, steps[0]);
      PostsStep(c, s, steps[0]);
      PostsRun(c, Apply(c, s, steps[0]), steps[1..]);
    }
  }

  // ---- A pass posts what its read made it owe ---------------------------------------------------

  // Everything pass w has posted, and has yet to post while it delivers, follows from one read.
  ghost predicate PostsAsRead(c: Config, s: State, w: WorkerId, m: MessageId, subs: seq<SubscriptionId>,
                              log: AttemptLog) {
    && HasRead(s, w, m, States(log, m, subs))
    && (InDelivery(s, w) ==> s.workers[w].phase.subs == subs)
    && forall p :: p in Posts(s.past) && p.0 == w ==> Owed(c, log, m, subs, p.1.subscriptionId) == Some(p.1)
  }

  lemma PostsAsReadStep(c: Config, s: State, step: Step, w: WorkerId, m: MessageId, subs: seq<SubscriptionId>,
                        log: AttemptLog)
    requires PostsAsRead(c, s, w, m, subs, log) && Enabled(c, s, step)
    ensures PostsAsRead(c, Apply(c, s, step), w, m, subs, log)
  {
    HasReadStep(c, s, step, w, m, States(log, m, subs));
    if step.Post? {
      PostAsRead(c, s, step.w, step.subscription, step.acceptedByReceiver, step.result, w, m, subs, log);
    } else {
      PostsFrame(c, s, step);
      if InDelivery(Apply(c, s, step), w) {
        StillDelivering(c, s, step, w);
      }
    }
  }

  lemma StillDelivering(c: Config, s: State, step: Step, w: WorkerId)
    requires Enabled(c, s, step) && !step.Post? && InDelivery(Apply(c, s, step), w)
    requires w in s.past.lockedAs && (w in s.workers ==> !s.workers[w].phase.Routed?)
    ensures InDelivery(s, w) && s.workers[w] == Apply(c, s, step).workers[w]
  {
    if !step.ReadStates? {
      DeliveryFrame(c, s, step, w);
    }
  }

  lemma PostAsRead(c: Config, s: State, v: WorkerId, sub: SubscriptionId, acceptedByReceiver: bool,
                   result: AttemptStatus,
                   w: WorkerId, m: MessageId, subs: seq<SubscriptionId>, log: AttemptLog)
    requires PostsAsRead(c, s, w, m, subs, log) && Enabled(c, s, Post(v, sub, acceptedByReceiver, result))
    ensures var s' := Apply(c, s, Post(v, sub, acceptedByReceiver, result));
            && (InDelivery(s', w) ==> s'.workers[w].phase.subs == subs)
            && forall p :: p in Posts(s'.past) && p.0 == w ==> Owed(c, log, m, subs, p.1.subscriptionId) == Some(p.1)
  {
    var s' := ApplyPost(s, v, sub, acceptedByReceiver, result);
    forall p | p in Posts(s'.past) && p.0 == w ensures Owed(c, log, m, subs, p.1.subscriptionId) == Some(p.1) {
      assert p in Posts(s.past) || p == (v, NextId(s.workers[v].messageId, s.workers[v].phase.states, sub));
    }
  }

  lemma {:induction false} PostsAsReadRun(c: Config, s: State, steps: seq<Step>, w: WorkerId, m: MessageId,
                                          subs: seq<SubscriptionId>, log: AttemptLog)
    requires PostsAsRead(c, s, w, m, subs, log) && IsRun(c, s, steps)
    ensures PostsAsRead(c, End(c, s, steps), w, m, subs, log)
    decreases |steps|
  {
    if steps != [] {
      PostsAsReadStep(c, s, steps[0], w, m, subs, log);
      PostsAsReadRun(c, Apply(c, s, steps[0]), steps[1..], w, m, subs, log);
    }
  }

  lemma ReadBegins(c: Config, s: State, w: WorkerId)
    requires PostInv(s) && PostsInv(s) && Enabled(c, s, ReadStates(w))
    ensures PostsAsRead(c, Apply(c, s, ReadStates(w)), w, s.workers[w].messageId, s.workers[w].phase.subs, s.log)
  {
    assert PostsTrue(s.past, w, s.workers[w]);
    forall p | p in Posts(s.past) ensures p.0 != w {
      assert PostOk(s.past, s.workers, p);
    }
  }

  // ---- Two passes -------------------------------------------------------------------------------

  // A run in which pass v reads its states, later pass w reads those of the same message, and
  // anything happens before, between and after.
  datatype TwoReads = TwoReads(before: seq<Step>, v: WorkerId, between: seq<Step>, w: WorkerId, after: seq<Step>)
  {
    ghost predicate FirstHalf(c: Config) {
      && IsRun(c, INIT, before)
      && Enabled(c, End(c, INIT, before), ReadStates(v))
      && IsRun(c, Apply(c, End(c, INIT, before), ReadStates(v)), between)
    }

    ghost predicate Runs(c: Config) {
      && FirstHalf(c)
      && Enabled(c, Second(c), ReadStates(w))
      && Second(c).workers[w].messageId == First(c).workers[v].messageId
      && IsRun(c, Apply(c, Second(c), ReadStates(w)), after)
    }

    // The states the two read in, and the last one.
    ghost function First(c: Config): State
      requires FirstHalf(c)
    {
      End(c, INIT, before)
    }

    ghost function Second(c: Config): State
      requires FirstHalf(c)
    {
      End(c, Apply(c, First(c), ReadStates(v)), between)
    }

    ghost function Last(c: Config): State
      requires Runs(c)
    {
      End(c, Apply(c, Second(c), ReadStates(w)), after)
    }

    ghost function Message(c: Config): MessageId
      requires FirstHalf(c)
    {
      First(c).workers[v].messageId
    }
  }

  // From the read of any run on.
  lemma KeptSince(c: Config, before: seq<Step>, w: WorkerId, after: seq<Step>)
    requires IsRun(c, INIT, before) && Enabled(c, End(c, INIT, before), ReadStates(w))
    requires IsRun(c, Apply(c, End(c, INIT, before), ReadStates(w)), after)
    ensures var s := End(c, INIT, before);
            var k := s.workers[w];
            PostsAsRead(c, End(c, Apply(c, s, ReadStates(w)), after), w, k.messageId, k.phase.subs, s.log)
  {
    PostsRun(c, INIT, before);
    var s := End(c, INIT, before);
    ReadBegins(c, s, w);
    PostsAsReadRun(c, Apply(c, s, ReadStates(w)), after, w, s.workers[w].messageId, s.workers[w].phase.subs, s.log);
  }

  lemma OtherReadIsKept(c: Config, s: State, w: WorkerId, after: seq<Step>, v: WorkerId, m: MessageId,
                        subs: seq<SubscriptionId>, log: AttemptLog)
    requires PostsAsRead(c, s, v, m, subs, log)
    requires Enabled(c, s, ReadStates(w)) && IsRun(c, Apply(c, s, ReadStates(w)), after)
    ensures PostsAsRead(c, End(c, Apply(c, s, ReadStates(w)), after), v, m, subs, log)
  {
    PostsAsReadStep(c, s, ReadStates(w), v, m, subs, log);
    PostsAsReadRun(c, Apply(c, s, ReadStates(w)), after, v, m, subs, log);
  }

  lemma FirstKept(c: Config, t: TwoReads)
    requires t.Runs(c)
    ensures var k := t.First(c).workers[t.v];
            PostsAsRead(c, t.Last(c), t.v, k.messageId, k.phase.subs, t.First(c).log)
  {
    var k := t.First(c).workers[t.v];
    KeptSince(c, t.before, t.v, t.between);
    OtherReadIsKept(c, t.Second(c), t.w, t.after, t.v, k.messageId, k.phase.subs, t.First(c).log);
  }

  lemma UpToSecondRead(c: Config, t: TwoReads) returns (steps: seq<Step>)
    requires t.FirstHalf(c)
    ensures IsRun(c, INIT, steps) && End(c, INIT, steps) == t.Second(c)
  {
    var middle := [ReadStates(t.v)] + t.between;
    assert middle[1..] == t.between;
    RunsCompose(c, INIT, t.before, middle);
    steps := t.before + middle;
  }

  lemma SecondKept(c: Config, t: TwoReads)
    requires t.Runs(c)
    ensures var k := t.Second(c).workers[t.w];
            PostsAsRead(c, t.Last(c), t.w, k.messageId, k.phase.subs, t.Second(c).log)
  {
    var steps := UpToSecondRead(c, t);
    KeptSince(c, steps, t.w, t.after);
  }

  // Between the reads the pair's log only grew, or went with the message.
  lemma LogsAtReads(c: Config, t: TwoReads, sub: SubscriptionId)
    requires t.FirstHalf(c)
    ensures LogOk(c, t.First(c).log) && LogOk(c, t.Second(c).log)
    ensures PairGrew(t.First(c).log, t.Second(c).log, t.Message(c), sub)
  {
    InvRun(c, INIT, t.before);
    MiddleGrows(c, t.First(c), t.v, t.between, sub);
  }

  lemma MiddleGrows(c: Config, s: State, v: WorkerId, between: seq<Step>, sub: SubscriptionId)
    requires Inv(c, s) && Enabled(c, s, ReadStates(v)) && IsRun(c, Apply(c, s, ReadStates(v)), between)
    ensures var s2 := End(c, Apply(c, s, ReadStates(v)), between);
            LogOk(c, s2.log) && PairGrew(s.log, s2.log, s.workers[v].messageId, sub)
  {
    InvStep(c, s, ReadStates(v));
    PairGrewRun(c, Apply(c, s, ReadStates(v)), between, s.workers[v].messageId, sub);
  }

  // While both are still delivering: they owe sub the same id exactly when the pair was open at
  // the first read and nothing was stored for it before the second.
  lemma SameIdOwedTheorem(c: Config, t: TwoReads, sub: SubscriptionId)
    requires t.Runs(c) && InDelivery(t.Last(c), t.v) && InDelivery(t.Last(c), t.w)
    requires sub in t.Last(c).workers[t.v].phase.subs && sub in t.Last(c).workers[t.w].phase.subs
    ensures var j, k := t.Last(c).workers[t.v], t.Last(c).workers[t.w];
            (&& NeedsPost(c, j.phase.states, sub) && NeedsPost(c, k.phase.states, sub)
             && NextId(j.messageId, j.phase.states, sub) == NextId(k.messageId, k.phase.states, sub))
            <==> (&& !Closed(c, t.First(c).log, t.Message(c), sub)
                  && SamePair(t.First(c).log, t.Second(c).log, t.Message(c), sub))
  {
    var subs, subs' := t.First(c).workers[t.v].phase.subs, t.Second(c).workers[t.w].phase.subs;
    LogsAtReads(c, t, sub);
    FirstKept(c, t);
    SecondKept(c, t);
    SameDebtExactly(c, t.First(c).log, t.Second(c).log, t.Message(c), subs, subs', sub);
  }

  ghost predicate PostedTo(past: History, w: WorkerId, sub: SubscriptionId) {
    exists id: DeliveryId :: id.subscriptionId == sub && (w, id) in Posts(past)
  }

  ghost predicate PostedTheSame(past: History, v: WorkerId, w: WorkerId, sub: SubscriptionId) {
    exists id: DeliveryId :: id.subscriptionId == sub && (v, id) in Posts(past) && (w, id) in Posts(past)
  }

  // On every run, of any two passes over a message, whichever read first: they have posted one
  // id to sub exactly when both have posted to it and no row of the pair was stored between
  // their reads.
  lemma DualDeliveryTheorem(c: Config, t: TwoReads, sub: SubscriptionId)
    requires t.Runs(c)
    ensures PostedTheSame(t.Last(c).past, t.v, t.w, sub)
            <==> (&& PostedTo(t.Last(c).past, t.v, sub) && PostedTo(t.Last(c).past, t.w, sub)
                  && SamePair(t.First(c).log, t.Second(c).log, t.Message(c), sub))
  {
    LogsAtReads(c, t, sub);
    FirstKept(c, t);
    SecondKept(c, t);
    var j, k := t.First(c).workers[t.v], t.Second(c).workers[t.w];
    SamePostsExactly(c, t.Last(c), t.v, t.w, t.Message(c), j.phase.subs, k.phase.subs, t.First(c).log,
          t.Second(c).log, sub);
  }

  lemma SamePostsExactly(c: Config, s: State, v: WorkerId, w: WorkerId, m: MessageId, subs: seq<SubscriptionId>,
                         subs': seq<SubscriptionId>, log: AttemptLog, log': AttemptLog, sub: SubscriptionId)
    requires PostsAsRead(c, s, v, m, subs, log) && PostsAsRead(c, s, w, m, subs', log')
    requires LogOk(c, log) && LogOk(c, log') && PairGrew(log, log', m, sub)
    ensures PostedTheSame(s.past, v, w, sub)
            <==> PostedTo(s.past, v, sub) && PostedTo(s.past, w, sub) && SamePair(log, log', m, sub)
  {
    SameDebtExactly(c, log, log', m, subs, subs', sub);
    if PostedTo(s.past, v, sub) && PostedTo(s.past, w, sub) {
      var a: DeliveryId :| a.subscriptionId == sub && (v, a) in Posts(s.past);
      var b: DeliveryId :| b.subscriptionId == sub && (w, b) in Posts(s.past);
      OnlyWhatIsOwed(c, s, v, m, subs, log, a);
      OnlyWhatIsOwed(c, s, w, m, subs', log', b);
    }
    if PostedTheSame(s.past, v, w, sub) {
      var id: DeliveryId :| id.subscriptionId == sub && (v, id) in Posts(s.past) && (w, id) in Posts(s.past);
      OnlyWhatIsOwed(c, s, v, m, subs, log, id);
      OnlyWhatIsOwed(c, s, w, m, subs', log', id);
    }
  }

  lemma OnlyWhatIsOwed(c: Config, s: State, w: WorkerId, m: MessageId, subs: seq<SubscriptionId>, log: AttemptLog,
                       id: DeliveryId)
    requires PostsAsRead(c, s, w, m, subs, log) && (w, id) in Posts(s.past)
    ensures Owed(c, log, m, subs, id.subscriptionId) == Some(id)
    ensures id.subscriptionId in subs && !Closed(c, log, m, id.subscriptionId)
  {
    var p := (w, id);
    assert p in Posts(s.past) && p.0 == w;
    StateFacts(log, m, subs, id.subscriptionId);
  }

  // ---- How often --------------------------------------------------------------------------------

  function LockersOf(locked: map<WorkerId, LockRecord>, m: MessageId): set<WorkerId> {
    set w | w in locked && locked[w].messageId == m
  }

  function PassesOn(past: History, m: MessageId): set<WorkerId> {
    LockersOf(past.lockedAs, m)
  }

  // Every pass is one lock of its message.
  ghost predicate CountedInv(s: State) {
    && (forall w :: w in s.past.lockedAs ==> s.past.lockedAs[w].messageId in s.past.committed)
    && (forall m :: m in s.past.accounts ==> s.past.accounts[m].acquired == |PassesOn(s.past, m)|)
  }

  // Steps that lock nothing leave the passes and the locks counted alone.
  ghost predicate SameLocks(past: History, past': History) {
    && past'.lockedAs == past.lockedAs && past.committed <= past'.committed
    && (forall m :: m in past.accounts ==>
          m in past'.accounts && past'.accounts[m].acquired == past.accounts[m].acquired)
    && (forall m :: m in past'.accounts && m !in past.accounts ==>
          past'.accounts[m].acquired == 0 && m !in past.committed)
  }

  lemma NothingLocked(c: Config, s: State, step: Step)
    requires TxInv(s) && AccountInv(s) && Enabled(c, s, step) && !step.HotLock? && !step.ColdLock?
    ensures SameLocks(s.past, Apply(c, s, step).past)
  {
    if PassStep(step) {
      PassStepFrame(c, s, step);
    } else if step.WriteBack? {
      WriteBackLocks(s, step.w, VerdictOf(c, s.workers[step.w]), CauseOf(c, step.w, s.workers[step.w]),
            step.nextRetryAt);
    }
  }

  lemma WriteBackLocks(s: State, w: WorkerId, verdict: Verdict, cause: DeadCause, nextRetryAt: Instant)
    requires ReadyToWriteBack(s, w)
    ensures SameLocks(s.past, ApplyVerdict(s, w, verdict, cause, nextRetryAt).past)
  {
  }

  lemma SameLocksCounted(s: State, s': State)
    requires CountedInv(s) && AccountInv(s) && SameLocks(s.past, s'.past)
    ensures CountedInv(s')
  {
    forall m | m in s'.past.accounts ensures s'.past.accounts[m].acquired == |PassesOn(s'.past, m)| {
      assert PassesOn(s'.past, m) == PassesOn(s.past, m);
      if m !in s.past.accounts {
        assert PassesOn(s.past, m) == {};
      }
    }
  }

  lemma HotCounted(s: State, w: WorkerId, instance: InstanceId, id: MessageId, visibility: int)
    requires CountedInv(s) && w !in s.past.lockedAs && id in s.table && id in s.past.committed
    ensures CountedInv(ApplyHotLock(s, w, instance, id, visibility))
  {
    var s' := ApplyHotLock(s, w, instance, id, visibility);
    forall m | m in s'.past.accounts ensures s'.past.accounts[m].acquired == |PassesOn(s'.past, m)| {
      LockCounts(s.past.accounts, s.table, {id}, m);
      OnePassMore(s.past.lockedAs, w, s'.past.lockedAs[w], m);
    }
  }

  lemma LockCounts(accounts: map<MessageId, Account>, t: Table, ids: set<MessageId>, m: MessageId)
    requires m in accounts && ids <= t.Keys
    ensures AccountLocks(accounts, t, ids)[m].acquired == accounts[m].acquired + (if m in ids then 1 else 0)
  {
  }

  lemma OnePassMore(locked: map<WorkerId, LockRecord>, w: WorkerId, record: LockRecord, m: MessageId)
    requires w !in locked
    ensures |LockersOf(locked[w := record], m)| == |LockersOf(locked, m)| + (if record.messageId == m then 1 else 0)
  {
    assert LockersOf(locked[w := record], m) == LockersOf(locked, m) + (if record.messageId == m then {w} else {});
  }

  lemma ColdCounted(s: State, instance: InstanceId, visibility: int, passes: map<WorkerId, MessageId>)
    requires CountedInv(s) && passes.Keys !! s.past.lockedAs.Keys && Injective(passes)
    requires forall w :: w in passes ==> passes[w] in s.table && passes[w] in s.past.committed
    ensures CountedInv(ApplyColdLock(s, instance, visibility, passes))
  {
    var s' := ApplyColdLock(s, instance, visibility, passes);
    forall m | m in s'.past.accounts ensures s'.past.accounts[m].acquired == |PassesOn(s'.past, m)| {
      LockCounts(s.past.accounts, s.table, passes.Values, m);
      BatchOfPasses(s.past.lockedAs, s.table, passes, m);
    }
  }

  lemma BatchOfPasses(locked: map<WorkerId, LockRecord>, t: Table, passes: map<WorkerId, MessageId>, m: MessageId)
    requires passes.Keys !! locked.Keys && Injective(passes)
    requires forall w :: w in passes ==> passes[w] in t
    ensures |LockersOf(locked + RecordAll(t, passes), m)| == |LockersOf(locked, m)|
        + (if m in passes.Values then 1 else 0)
  {
    if m in passes.Values {
      var w :| w in passes && passes[w] == m;
      OneOfBatch(locked, t, passes, w);
    } else {
      NoneOfBatch(locked, t, passes, m);
    }
  }

  lemma OneOfBatch(locked: map<WorkerId, LockRecord>, t: Table, passes: map<WorkerId, MessageId>, w: WorkerId)
    requires w in passes && w !in locked && Injective(passes)
    requires forall v :: v in passes ==> passes[v] in t && v !in locked
    ensures |LockersOf(locked + RecordAll(t, passes), passes[w])| == |LockersOf(locked, passes[w])| + 1
  {
    assert LockersOf(locked + RecordAll(t, passes), passes[w]) == LockersOf(locked, passes[w]) + {w};
  }

  lemma NoneOfBatch(locked: map<WorkerId, LockRecord>, t: Table, passes: map<WorkerId, MessageId>, m: MessageId)
    requires m !in passes.Values && forall v :: v in passes ==> passes[v] in t && v !in locked
    ensures LockersOf(locked + RecordAll(t, passes), m) == LockersOf(locked, m)
  {
    forall v | v in passes ensures passes[v] != m {
      assert passes[v] in passes.Values;
    }
  }

  lemma CountedStep(c: Config, s: State, step: Step)
    requires TxInv(s) && AccountInv(s) && CountedInv(s) && Enabled(c, s, step)
    ensures CountedInv(Apply(c, s, step))
  {
    match step
    case HotLock(w, instance, id, visibility) => HotCounted(s, w, instance, id, visibility);
    case ColdLock(instance, o, skip, passes) => ColdCountedStep(c, s, instance, o, skip, passes);
    case _ => OtherCountedStep(c, s, step);
  }

  lemma ColdCountedStep(c: Config, s: State, instance: InstanceId, o: LockOptions, skip: set<MessageId>,
                        passes: map<WorkerId, MessageId>)
    requires TxInv(s) && AccountInv(s) && CountedInv(s) && Enabled(c, s, ColdLock(instance, o, skip, passes))
    ensures CountedInv(Apply(c, s, ColdLock(instance, o, skip, passes)))
  {
    ColdLockTakes(c, s, instance, o, skip, passes);
    ColdCounted(s, instance, o.visibility, passes);
  }

  lemma OtherCountedStep(c: Config, s: State, step: Step)
    requires TxInv(s) && AccountInv(s) && CountedInv(s) && Enabled(c, s, step) && !step.HotLock? && !step.ColdLock?
    ensures CountedInv(Apply(c, s, step))
  {
    NothingLocked(c, s, step);
    SameLocksCounted(s, Apply(c, s, step));
  }

  lemma {:induction false} CountedRun(c: Config, s: State, steps: seq<Step>)
    requires Inv(c, s) && CountedInv(s) && IsRun(c, s, steps)
    ensures CountedInv(End(c, s, steps))
    decreases |steps|
  {
    if steps != [] {
      InvStep(c, s, steps[0]);
      CountedStep(c, s, steps[0]);
      CountedRun(c, Apply(c, s, steps[0]), steps[1..]);
    }
  }

  function PostsOf(past: History, m: MessageId, sub: SubscriptionId): set<PostMade> {
    set p | p in Posts(past) && p.1.messageId == m && p.1.subscriptionId == sub
  }

  // On every run the POSTs of a pair number at most the locks ever taken on its message, and
  // so do those under any one id.
  lemma PostsBoundTheorem(c: Config, steps: seq<Step>, m: MessageId, sub: SubscriptionId)
    requires IsRun(c, INIT, steps) && m in End(c, INIT, steps).past.committed
    ensures var past := End(c, INIT, steps).past;
            m in past.accounts && |PostsOf(past, m, sub)| <= past.accounts[m].acquired
  {
    PostsRun(c, INIT, steps);
    CountedInit();
    CountedRun(c, INIT, steps);
    var s := End(c, INIT, steps);
    forall p | p in PostsOf(s.past, m, sub) ensures p.0 in PassesOn(s.past, m) {
      assert PostOk(s.past, s.workers, p);
    }
    EachPassOnce(PostsOf(s.past, m, sub), PassesOn(s.past, m));
  }

  lemma CountedInit()
    ensures CountedInv(INIT)
  {
  }

  lemma {:induction false} EachPassOnce(posts: set<PostMade>, passes: set<WorkerId>)
    requires forall p :: p in posts ==> p.0 in passes
    requires forall p, q :: p in posts && q in posts && p.0 == q.0 ==> p == q
    ensures |posts| <= |passes|
    decreases posts
  {
    if posts != {} {
      var p :| p in posts;
      EachPassOnce(posts - {p}, passes - {p.0});
    }
  }
}
