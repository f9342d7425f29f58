// When a delivery is repeated. Two passes may POST one id; this module says exactly when a
// pass repeats an id posted before, and which runs never repeat any.

module Redelivery {
  import opened OutboxTypes
  import opened AttemptTable
  import opened Delivery
  import opened Protocol
  import opened AttemptInvariant
  import opened Leases
  import opened Overruns
  import opened Reachability
  import opened Idempotency

  // ---- What a read makes a pass post ----------------------------------------------------------

  // Reading the states makes the pass post an earlier id again exactly when that id's row is
  // not in the log.
  lemma ReadsRepeatExactly(c: Config, log: AttemptLog, m: MessageId, subs: seq<SubscriptionId>, id: DeliveryId)
    requires LogOk(c, log) && id.messageId == m && id.subscriptionId in subs
    requires 1 <= id.number && id.number - 1 <= c.maxRetries(id.subscriptionId)
    requires id.number > 1 ==> Before(id) in log && log[Before(id)] != Success
    ensures var states := States(log, m, subs);
            NeedsPost(c, states, id.subscriptionId) && NextId(m, states, id.subscriptionId) == id <==> id !in log
  {
    var sub := id.subscriptionId;
    StateFacts(log, m, subs, sub);
    ExactNumbering(log, m, sub);
    PostWithinCount(log, m, sub, id);
    assert id == DeliveryId(m, sub, id.number);
  }

  // The pass has read its states and will not read them again.
  ghost predicate HasRead(s: State, w: WorkerId, m: MessageId, states: StateMap) {
    && w in s.past.lockedAs
    && (w in s.workers ==>
          && s.workers[w].messageId == m
          && (s.workers[w].phase.Deciding? || s.workers[w].phase.Failing?
              || (s.workers[w].phase.Delivering? && s.workers[w].phase.states == states)))
  }

  lemma HasReadStep(c: Config, s: State, step: Step, w: WorkerId, m: MessageId, states: StateMap)
    requires HasRead(s, w, m, states) && Enabled(c, s, step)
    ensures HasRead(Apply(c, s, step), w, m, states)
  {
    match step
    case ColdLock(instance, o, skip, passes) => ColdLockTakes(c, s, instance, o, skip, passes);
    case _ =>
  }

  lemma {:induction false} HasReadRun(c: Config, s: State, steps: seq<Step>, w: WorkerId, m: MessageId,
                                      states: StateMap)
    requires HasRead(s, w, m, states) && IsRun(c, s, steps)
    ensures HasRead(End(c, s, steps), w, m, states)
    decreases |steps|
  {
    if steps != [] {
      HasReadStep(c, s, steps[0], w, m, states);
      HasReadRun(c, Apply(c, s, steps[0]), steps[1..], w, m, states);
    }
  }

  // On every run: a pass that reads its states when id has been posted for its message, and is
  // still delivering any number of steps later, posts that id again exactly when the row was
  // not in the log at the read, whatever other passes did since.
  lemma RepeatTheorem(c: Config, before: seq<Step>, w: WorkerId, during: seq<Step>, id: DeliveryId)
    requires IsRun(c, INIT, before) && Enabled(c, End(c, INIT, before), ReadStates(w))
    requires var s0 := End(c, INIT, before);
             var k := s0.workers[w];
             && k.messageId in s0.table && id.subscriptionId in k.phase.subs
             && id in PostedIds(s0, k.messageId, id.subscriptionId)
             && var s1 := Apply(c, s0, ReadStates(w));
                IsRun(c, s1, during) && InDelivery(End(c, s1, during), w)
    ensures var s0 := End(c, INIT, before);
            var k := End(c, Apply(c, s0, ReadStates(w)), during).workers[w];
            NeedsPost(c, k.phase.states, id.subscriptionId)
                && NextId(k.messageId, k.phase.states, id.subscriptionId) == id
            <==> id !in s0.log
  {
    var s0 := End(c, INIT, before);
    var m, subs := s0.workers[w].messageId, s0.workers[w].phase.subs;
    PostsFollowRun(c, INIT, before);
    assert FollowsLog(c, s0.log, s0.table, id);
    ReadsRepeatExactly(c, s0.log, m, subs, id);
    HasReadRun(c, Apply(c, s0, ReadStates(w)), during, w, m, States(s0.log, m, subs));
  }

  // ---- When two passes post one id ------------------------------------------------------------

  // What a pass that read the states of its list from this log has to post to sub, if anything.
  function Owed(c: Config, log: AttemptLog, m: MessageId, subs: seq<SubscriptionId>,
                sub: SubscriptionId): Option<DeliveryId> {
    var states := States(log, m, subs);
    if sub in subs && NeedsPost(c, states, sub) then Some(NextId(m, states, sub)) else None
  }

  lemma OwedIs(c: Config, log: AttemptLog, m: MessageId, subs: seq<SubscriptionId>, sub: SubscriptionId)
    requires sub in subs
    ensures Owed(c, log, m, subs, sub)
         == if Closed(c, log, m, sub) then None else Some(DeliveryId(m, sub, Count(log, m, sub) + 1))
  {
    StateFacts(log, m, subs, sub);
  }

  // The later log holds the pair's earlier rows, or none when the message is gone.
  ghost predicate PairGrew(log: AttemptLog, log': AttemptLog, m: MessageId, sub: SubscriptionId) {
    || Contains(log', Cascade(log, {m}))
    || Count(log', m, sub) == 0
  }

  lemma SameCountSamePair(c: Config, log: AttemptLog, log': AttemptLog, m: MessageId, sub: SubscriptionId)
    requires LogOk(c, log) && LogOk(c, log') && PairGrew(log, log', m, sub)
    requires Count(log, m, sub) == Count(log', m, sub)
    ensures SamePair(log, log', m, sub)
  {
    ExactNumbering(log, m, sub);
    ExactNumbering(log', m, sub);
    forall id: DeliveryId | id.messageId == m && id.subscriptionId == sub
      ensures (id in log <==> id in log') && (id in log ==> log'[id] == log[id])
    {
      assert id == DeliveryId(m, sub, id.number);
      assert id in log ==> id in Cascade(log, {m});
    }
  }

  // Two reads of one pair lead to the same POST exactly when the pair was open at the first and
  // nothing was stored for it in between.
  lemma SameDebtExactly(c: Config, log: AttemptLog, log': AttemptLog, m: MessageId, subs: seq<SubscriptionId>,
                        subs': seq<SubscriptionId>, sub: SubscriptionId)
    requires LogOk(c, log) && LogOk(c, log') && PairGrew(log, log', m, sub)
    ensures Owed(c, log, m, subs, sub).Some? && Owed(c, log, m, subs, sub) == Owed(c, log', m, subs', sub)
            <==> sub in subs && sub in subs' && !Closed(c, log, m, sub) && SamePair(log, log', m, sub)
  {
    if sub in subs && sub in subs' {
      OwedIs(c, log, m, subs, sub);
      OwedIs(c, log', m, subs', sub);
      if SamePair(log, log', m, sub) {
        SamePairSameGroup(c, log, log', m, sub);
      } else if Count(log, m, sub) == Count(log', m, sub) {
        SameCountSamePair(c, log, log', m, sub);
      }
    }
  }

  lemma {:induction false} PairGrewRun(c: Config, s: State, steps: seq<Step>, m: MessageId, sub: SubscriptionId)
    requires Inv(c, s) && IsRun(c, s, steps) && m in s.past.committed
    ensures Inv(c, End(c, s, steps)) && PairGrew(s.log, End(c, s, steps).log, m, sub)
    ensures m in End(c, s, steps).table ==> m in s.table && Contains(End(c, s, steps).log, Cascade(s.log, {m}))
    decreases |steps|
  {
    if steps != [] {
      var s' := Apply(c, s, steps[0]);
      InvStep(c, s, steps[0]);
      CommittedGrows(c, s, steps[0]);
      PairGrewRun(c, s', steps[1..], m, sub);
      if m in End(c, s, steps).table {
        RowsStay(c, s, steps[0], m);
        ContainsTwice(s.log, s'.log, End(c, s, steps).log, m);
      }
    }
    if m !in End(c, s, steps).table {
      assert RowsOf(End(c, s, steps).log, m, sub) == {};
    }
  }

  lemma ContainsTwice(log0: AttemptLog, log1: AttemptLog, log2: AttemptLog, m: MessageId)
    requires Contains(log1, Cascade(log0, {m})) && Contains(log2, Cascade(log1, {m}))
    ensures Contains(log2, Cascade(log0, {m}))
  {
    forall id | id in Cascade(log0, {m}) ensures id in log2 && log2[id] == log0[id] {
      assert id in Cascade(log1, {m});
    }
  }

  // ---- Runs that never repeat -----------------------------------------------------------------

  ghost predicate Posted(past: History, id: DeliveryId) {
    exists w :: (w, id) in past.accepted + past.failed
  }

  // The pass reads when nobody else is delivering its message and every POST made for the
  // message has its row.
  ghost predicate CleanRead(s: State, w: WorkerId)
    requires w in s.workers
  {
    var m := s.workers[w].messageId;
    && (forall v :: v in s.workers && s.workers[v].messageId == m ==> !s.workers[v].phase.Delivering?)
    && (forall p :: p in s.past.accepted + s.past.failed && p.1.messageId == m ==> p.1 in s.log)
  }

  ghost predicate CleanReads(c: Config, s: State, steps: seq<Step>)
    requires IsRun(c, s, steps)
    decreases |steps|
  {
    steps == [] || ((steps[0].ReadStates? ==> CleanRead(s, steps[0].w))
        && CleanReads(c, Apply(c, s, steps[0]), steps[1..]))
  }

  ghost predicate OnePoster(past: History) {
    forall p, q :: p in past.accepted + past.failed && q in past.accepted + past.failed && p.1 == q.1 ==> p.0 == q.0
  }

  // What a delivering pass has yet to post, nobody has posted.
  ghost predicate StillFresh(c: Config, past: History, k: Worker) {
    k.phase.Delivering? ==>
      forall sub :: sub in k.phase.subs && NeedsPost(c, k.phase.states, sub) && sub !in k.phase.results ==>
        !Posted(past, NextId(k.messageId, k.phase.states, sub))
  }

  ghost predicate OneDeliverer(workers: map<WorkerId, Worker>) {
    forall v, w | v in workers && w in workers ::
      (workers[v].phase.Delivering? && workers[w].phase.Delivering?
       && workers[v].messageId == workers[w].messageId) ==> v == w
  }

  ghost predicate NoRepeatInv(c: Config, s: State) {
    && OnePoster(s.past)
    && OneDeliverer(s.workers)
    && forall w :: w in s.workers ==> StillFresh(c, s.past, s.workers[w])
  }

  // A step that neither reads nor posts starts no delivery and changes none.
  lemma DeliveryFrame(c: Config, s: State, step: Step, w: WorkerId)
    requires Enabled(c, s, step) && !step.ReadStates? && !step.Post?
    requires w in Apply(c, s, step).workers && Apply(c, s, step).workers[w].phase.Delivering?
    ensures w in s.workers && s.workers[w] == Apply(c, s, step).workers[w]
  {
    match step
    case ColdLock(instance, o, skip, passes) => ColdLockTakes(c, s, instance, o, skip, passes);
    case _ =>
  }

  lemma NoRepeatStep(c: Config, s: State, step: Step)
    requires LogInv(c, s) && NoRepeatInv(c, s) && Enabled(c, s, step)
    requires step.ReadStates? ==> CleanRead(s, step.w)
    ensures NoRepeatInv(c, Apply(c, s, step))
  {
    match step
    case ReadStates(w) => NoRepeatRead(c, s, w);
    case Post(w, sub, acceptedByReceiver, result) => NoRepeatPost(c, s, w, sub, acceptedByReceiver, result);
    case _ => NoRepeatFrame(c, s, step);
  }

  lemma NoRepeatFrame(c: Config, s: State, step: Step)
    requires NoRepeatInv(c, s) && Enabled(c, s, step) && !step.ReadStates? && !step.Post?
    ensures NoRepeatInv(c, Apply(c, s, step))
  {
    var s' := Apply(c, s, step);
    forall w | w in s'.workers && s'.workers[w].phase.Delivering?
      ensures w in s.workers && s.workers[w] == s'.workers[w]
    {
      DeliveryFrame(c, s, step, w);
    }
    PostsFrame(c, s, step);
    NoRepeatOther(c, s, s');
  }

  lemma NoRepeatOther(c: Config, s: State, s': State)
    requires NoRepeatInv(c, s)
    requires s'.past.accepted == s.past.accepted && s'.past.failed == s.past.failed
    requires forall w :: w in s'.workers && s'.workers[w].phase.Delivering? ==>
          w in s.workers && s.workers[w] == s'.workers[w]
    ensures NoRepeatInv(c, s')
  {
    forall w | w in s'.workers ensures StillFresh(c, s'.past, s'.workers[w]) {
      if s'.workers[w].phase.Delivering? {
        assert StillFresh(c, s.past, s.workers[w]);
      }
    }
  }

  lemma NoRepeatRead(c: Config, s: State, w: WorkerId)
    requires LogInv(c, s) && NoRepeatInv(c, s) && Enabled(c, s, ReadStates(w)) && CleanRead(s, w)
    ensures NoRepeatInv(c, Apply(c, s, ReadStates(w)))
  {
    var s' := Apply(c, s, ReadStates(w));
    FreshAfterRead(c, s, w);
    forall v | v in s'.workers ensures StillFresh(c, s'.past, s'.workers[v]) {
      assert v != w ==> StillFresh(c, s.past, s.workers[v]);
    }
  }

  lemma FreshAfterRead(c: Config, s: State, w: WorkerId)
    requires LogInv(c, s) && Enabled(c, s, ReadStates(w)) && CleanRead(s, w)
    ensures StillFresh(c, s.past, Apply(c, s, ReadStates(w)).workers[w])
  {
    var m, subs := s.workers[w].messageId, s.workers[w].phase.subs;
    var states := States(s.log, m, subs);
    forall sub | sub in subs ensures !Posted(s.past, NextId(m, states, sub)) {
      StateFacts(s.log, m, subs, sub);
      ExactNumbering(s.log, m, sub);
      assert NextId(m, states, sub) !in s.log;
    }
  }

  lemma NoRepeatPost(c: Config, s: State, w: WorkerId, sub: SubscriptionId, acceptedByReceiver: bool,
                     result: AttemptStatus)
    requires NoRepeatInv(c, s) && Enabled(c, s, Post(w, sub, acceptedByReceiver, result))
    ensures NoRepeatInv(c, Apply(c, s, Post(w, sub, acceptedByReceiver, result)))
  {
    var s' := ApplyPost(s, w, sub, acceptedByReceiver, result);
    var id := NextId(s.workers[w].messageId, s.workers[w].phase.states, sub);
    assert StillFresh(c, s.past, s.workers[w]);
    assert !Posted(s.past, id);
    forall v | v in s'.workers ensures StillFresh(c, s'.past, s'.workers[v]) {
      assert StillFresh(c, s.past, s.workers[v]);
      FreshAfterPost(c, s.past, s'.past, w, id, s'.workers[v]);
    }
  }

  lemma FreshAfterPost(c: Config, past: History, past': History, w: WorkerId, id: DeliveryId, k: Worker)
    requires StillFresh(c, past, k)
    requires past'.accepted + past'.failed <= past.accepted + past.failed + {(w, id)}
    requires k.messageId == id.messageId && k.phase.Delivering? ==> id.subscriptionId in k.phase.results
    ensures StillFresh(c, past', k)
  {
  }

  lemma {:induction false} NoRepeatRun(c: Config, s: State, steps: seq<Step>)
    requires Inv(c, s) && NoRepeatInv(c, s) && IsRun(c, s, steps) && CleanReads(c, s, steps)
    ensures NoRepeatInv(c, End(c, s, steps))
    decreases |steps|
  {
    if steps != [] {
      InvStep(c, s, steps[0]);
      NoRepeatStep(c, s, steps[0]);
      NoRepeatRun(c, Apply(c, s, steps[0]), steps[1..]);
    }
  }

  // As long as states are only read cleanly, no id is posted by two passes.
  lemma SingleDeliveryTheorem(c: Config, steps: seq<Step>, v: WorkerId, w: WorkerId, id: DeliveryId)
    requires IsRun(c, INIT, steps) && CleanReads(c, INIT, steps)
    requires var past := End(c, INIT, steps).past;
             (v, id) in past.accepted + past.failed && (w, id) in past.accepted + past.failed
    ensures v == w
  {
    NoRepeatRun(c, INIT, steps);
  }

  // ---- When two passes are on one message -------------------------------------------------------

  // Under (H) they belong to different instances, and one of them has outlived its lease.
  lemma TwoPassesTheorem(c: Config, steps: seq<Step>, v: WorkerId, w: WorkerId)
    requires IsRun(c, INIT, steps) && ExclusiveRun(c, INIT, steps)
    requires var s := End(c, INIT, steps);
             v != w && v in s.workers && w in s.workers && s.workers[v].messageId == s.workers[w].messageId
    ensures var s := End(c, INIT, steps);
            && s.workers[v].instance != s.workers[w].instance
            && (!Live(s.workers[v], s.now) || !Live(s.workers[w], s.now))
  {
    ExclusiveInvRun(c, INIT, steps);
    assert OnePassEach(End(c, INIT, steps).workers);
    var s := End(c, INIT, steps);
    if Live(s.workers[v], s.now) && Live(s.workers[w], s.now) {
      MutualExclusionTheorem(c, steps, v, w);
    }
  }

  // With leases that outlast the passes there is never more than one on a message.
  lemma LeasesSufficeAlone(c: Config, steps: seq<Step>, v: WorkerId, w: WorkerId)
    requires IsRun(c, INIT, steps) && LeasesSuffice(c, INIT, steps)
    requires var s := End(c, INIT, steps);
             v in s.workers && w in s.workers && s.workers[v].messageId == s.workers[w].messageId
    ensures v == w
  {
    LeasesSufficeTheorem(c, steps, 0);
    NobodyOverranAtEnd(c, INIT, steps);
  }

  lemma {:induction false} NobodyOverranAtEnd(c: Config, s: State, steps: seq<Step>)
    requires IsRun(c, s, steps) && LeasesSuffice(c, s, steps)
    ensures NobodyOverran(End(c, s, steps))
    decreases |steps|
  {
    if steps != [] {
      NobodyOverranAtEnd(c, Apply(c, s, steps[0]), steps[1..]);
    }
  }
}
