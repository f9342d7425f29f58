// An uninterrupted pass is a run of the protocol: the imperative pipeline refines it.

module PassRuns {
  import opened OutboxTypes
  import opened Delivery
  import opened ParallelDelivery
  import opened Protocol
  import opened Pipeline

  // ---- Posting to the list, one subscription at a time ------------------------------------

  predicate NoLocks(steps: seq<Step>) {
    forall step :: step in steps ==> !step.HotLock? && !step.ColdLock?
  }

  function PostSteps(p: Pass, w: WorkerId, i: nat): (steps: seq<Step>)
    requires i <= |p.subs|
    ensures NoLocks(steps)
    decreases |p.subs| - i
  {
    if i == |p.subs| then []
    else
      var s := p.subs[i];
      (if NeedsPost(p.c, p.states, s) then [Post(w, s, p.post(s) == Success, p.post(s))] else [])
      + PostSteps(p, w, i + 1)
  }

  function ResultsUpTo(p: Pass, i: nat): ResultMap
    requires i <= |p.subs|
  {
    map s | s in p.subs[..i] && NeedsPost(p.c, p.states, s) :: p.post(s)
  }

  // Nothing moved but pass w, the POST history and what w itself did to them.
  ghost predicate OnlyPassMoved(s: State, s': State, w: WorkerId) {
    && s'.now == s.now && s'.table == s.table && s'.log == s.log && s'.open == s.open
        && s'.past.lockedAs == s.past.lockedAs
    && w in s.workers && w in s'.workers
    && s'.workers - {w} == s.workers - {w}
    && s'.workers[w].(phase := Locked) == s.workers[w].(phase := Locked)
  }

  ghost predicate Posting(p: Pass, s: State, w: WorkerId, i: nat)
    requires i <= |p.subs|
  {
    && w in s.workers && s.workers[w].messageId == p.messageId
    && s.workers[w].phase == Delivering(p.subs, p.states, ResultsUpTo(p, i))
  }

  lemma PostOne(p: Pass, s: State, w: WorkerId, i: nat)
    requires Distinct(p.subs) && i < |p.subs| && Posting(p, s, w, i) && NeedsPost(p.c, p.states, p.subs[i])
    ensures var step := Post(w, p.subs[i], p.post(p.subs[i]) == Success, p.post(p.subs[i]));
            && Enabled(p.c, s, step)
            && Posting(p, Apply(p.c, s, step), w, i + 1)
            && OnlyPassMoved(s, Apply(p.c, s, step), w)
  {
    var sub := p.subs[i];
    NextResult(p, i);
    PostMoves(s, w, sub, p.post(sub) == Success, p.post(sub));
  }

  lemma NextResult(p: Pass, i: nat)
    requires Distinct(p.subs) && i < |p.subs| && NeedsPost(p.c, p.states, p.subs[i])
    ensures p.subs[i] !in ResultsUpTo(p, i)
    ensures ResultsUpTo(p, i + 1) == ResultsUpTo(p, i)[p.subs[i] := p.post(p.subs[i])]
  {
    assert p.subs[..i + 1] == p.subs[..i] + [p.subs[i]];
  }

  lemma PostMoves(s: State, w: WorkerId, sub: SubscriptionId, acceptedByReceiver: bool, result: AttemptStatus)
    requires InDelivery(s, w)
    ensures var s' := ApplyPost(s, w, sub, acceptedByReceiver, result);
            && OnlyPassMoved(s, s', w)
            && s'.workers[w].phase == Delivering(s.workers[w].phase.subs, s.workers[w].phase.states,
                                                 s.workers[w].phase.results[sub := result])
  {
    var s' := ApplyPost(s, w, sub, acceptedByReceiver, result);
    assert s'.workers - {w} == s.workers - {w};
  }

  lemma SkipOne(p: Pass, s: State, w: WorkerId, i: nat)
    requires i < |p.subs| && Posting(p, s, w, i) && !NeedsPost(p.c, p.states, p.subs[i])
    ensures Posting(p, s, w, i + 1)
  {
    assert p.subs[..i + 1] == p.subs[..i] + [p.subs[i]];
    assert ResultsUpTo(p, i + 1) == ResultsUpTo(p, i);
  }

  lemma {:induction false} PostsRun(p: Pass, s: State, w: WorkerId, i: nat)
    requires Distinct(p.subs) && i <= |p.subs| && Posting(p, s, w, i)
    ensures IsRun(p.c, s, PostSteps(p, w, i))
    ensures Posting(p, End(p.c, s, PostSteps(p, w, i)), w, |p.subs|)
    ensures OnlyPassMoved(s, End(p.c, s, PostSteps(p, w, i)), w)
    decreases |p.subs| - i
  {
    if i < |p.subs| {
      if NeedsPost(p.c, p.states, p.subs[i]) {
        PostOne(p, s, w, i);
        var steps := PostSteps(p, w, i);
        var s1 := Apply(p.c, s, steps[0]);
        assert steps[1..] == PostSteps(p, w, i + 1);
        PostsRun(p, s1, w, i + 1);
      } else {
        SkipOne(p, s, w, i);
        assert PostSteps(p, w, i) == PostSteps(p, w, i + 1);
        PostsRun(p, s, w, i + 1);
      }
    }
  }

  // ---- The whole pass ---------------------------------------------------------------------

  ghost predicate IsJobOf(job: Job, k: Worker) {
    job.id == k.messageId && job.owner == k.instance && job.retrySnapshot == k.retrySnapshot
  }

  // The pass is over; it left the clock, other passes and open transactions alone.
  ghost predicate PassEnded(s: State, s': State, w: WorkerId) {
    s'.now == s.now && s'.open == s.open && s'.past.lockedAs == s.past.lockedAs && s'.workers == s.workers - {w}
  }

  lemma Prepend(c: Config, s: State, step: Step, rest: seq<Step>)
    requires Enabled(c, s, step) && IsRun(c, Apply(c, s, step), rest)
    ensures IsRun(c, s, [step] + rest) && End(c, s, [step] + rest) == End(c, Apply(c, s, step), rest)
  {
    assert ([step] + rest)[1..] == rest;
  }

  lemma WriteBackRun(c: Config, s: State, w: WorkerId, job: Job, env: Environment)
    requires ReadyToWriteBack(s, w) && IsJobOf(job, s.workers[w]) && env.now == s.now
    ensures var steps := [WriteBack(w, RetryDate(c, job, env))];
            && IsRun(c, s, steps)
            && var s' := End(c, s, steps);
            PassEnded(s, s', w) && s'.log == s.log
            && s'.table == WriteVerdict(c, s.table, job, VerdictOf(c, s.workers[w]), env)
  {
    var k := s.workers[w];
    var step := WriteBack(w, RetryDate(c, job, env));
    VerdictRun(c, s, w, VerdictOf(c, k), CauseOf(c, w, k), job, env);
    assert [step][1..] == [];
    assert IsRun(c, Apply(c, s, step), []);
  }

  lemma VerdictRun(c: Config, s: State, w: WorkerId, verdict: Verdict, cause: DeadCause, job: Job, env: Environment)
    requires ReadyToWriteBack(s, w) && IsJobOf(job, s.workers[w]) && env.now == s.now
    ensures var s' := ApplyVerdict(s, w, verdict, cause, RetryDate(c, job, env));
            PassEnded(s, s', w) && s'.log == s.log && s'.table == WriteVerdict(c, s.table, job, verdict, env)
  {
  }

  // What becomes of the pass's rows.
  function OutcomeOf(p: Pass, s: State, wanted: SaveResult): SaveResult {
    SaveOutcome(s.log, s.table, NewRows(p.messageId, p.states, p.Results()), wanted)
  }

  ghost predicate SavedTo(p: Pass, s: State, s1: State, w: WorkerId, outcome: SaveResult) {
    && w in s.workers
    && s1.now == s.now && s1.open == s.open && s1.table == s.table && s1.past == s.past
    && s1.log == (if outcome == Refused then s.log else s.log + NewRows(p.messageId, p.states, p.Results()))
    && s1.workers == InPhase(s.workers, w, Deciding(p.subs, p.states, p.Results(), outcome == Stored))
  }

  lemma AllPosted(p: Pass, s: State, w: WorkerId)
    requires Posting(p, s, w, |p.subs|)
    ensures s.workers[w].phase == Delivering(p.subs, p.states, p.Results())
    ensures PassComplete(p.c, p.subs, p.states, p.Results())
  {
    assert p.subs[..|p.subs|] == p.subs;
    assert ResultsUpTo(p, |p.subs|) == p.Results();
  }

  lemma SaveOne(p: Pass, s: State, w: WorkerId, wanted: SaveResult)
    requires p.subs != [] && Posting(p, s, w, |p.subs|)
    ensures Enabled(p.c, s, Save(w, OutcomeOf(p, s, wanted)))
    ensures SavedTo(p, s, Apply(p.c, s, Save(w, OutcomeOf(p, s, wanted))), w, OutcomeOf(p, s, wanted))
  {
    AllPosted(p, s, w);
    NoRowsNoResults(p);
  }

  // The pass ended with its rows saved or not, and its verdict written.
  ghost predicate DeliveryDone(p: Pass, s: State, s': State, w: WorkerId, job: Job, env: Environment) {
    var outcome := OutcomeOf(p, s, env.save);
    && PassEnded(s, s', w)
    && s'.log == (if outcome == Refused then s.log else s.log + NewRows(p.messageId, p.states, p.Results()))
    && var verdict := Decide(p.c, p.subs, p.states, p.Results(), outcome == Stored, job.retrySnapshot);
       s'.table == WriteVerdict(p.c, s.table, job, verdict, env)
  }

  // After the last POST: save, decide, write back.
  lemma SaveRun(p: Pass, s: State, w: WorkerId, job: Job, env: Environment) returns (steps: seq<Step>, s': State)
    requires p.subs != [] && Posting(p, s, w, |p.subs|) && IsJobOf(job, s.workers[w]) && env.now == s.now
    ensures NoLocks(steps) && IsRun(p.c, s, steps) && s' == End(p.c, s, steps)
    ensures DeliveryDone(p, s, s', w, job, env)
  {
    SaveOne(p, s, w, env.save);
    var outcome := OutcomeOf(p, s, env.save);
    var s1 := Apply(p.c, s, Save(w, outcome));
    WriteBackRun(p.c, s1, w, job, env);
    Prepend(p.c, s, Save(w, outcome), [WriteBack(w, RetryDate(p.c, job, env))]);
    steps := [Save(w, outcome)] + [WriteBack(w, RetryDate(p.c, job, env))];
    s' := End(p.c, s, steps);
    SavedThenWritten(p, s, s1, s', w, job, env);
  }

  lemma SavedThenWritten(p: Pass, s: State, s1: State, s': State, w: WorkerId, job: Job, env: Environment)
    requires SavedTo(p, s, s1, w, OutcomeOf(p, s, env.save)) && IsJobOf(job, s1.workers[w])
    requires PassEnded(s1, s', w) && s'.log == s1.log
    requires s'.table == WriteVerdict(p.c, s1.table, job, VerdictOf(p.c, s1.workers[w]), env)
    ensures DeliveryDone(p, s, s', w, job, env)
  {
    assert s1.workers - {w} == s.workers - {w};
  }

  lemma NoRowsNoResults(p: Pass)
    ensures NewRows(p.messageId, p.states, p.Results()) == map[] <==> p.Results() == map[]
  {
    if p.Results() != map[] {
      var sub :| sub in p.Results();
      assert NextId(p.messageId, p.states, sub) in NewRows(p.messageId, p.states, p.Results());
    }
  }

  lemma DoneFromPosted(p: Pass, s: State, posted: State, s': State, w: WorkerId, job: Job, env: Environment)
    requires OnlyPassMoved(s, posted, w) && DeliveryDone(p, posted, s', w, job, env)
    ensures DeliveryDone(p, s, s', w, job, env)
  {
  }

  // A pass that has its list and read its states.
  lemma DeliveryRun(p: Pass, s: State, w: WorkerId, job: Job, env: Environment) returns (steps: seq<Step>)
    requires p.subs != [] && Distinct(p.subs) && Posting(p, s, w, 0)
    requires IsJobOf(job, s.workers[w]) && env.now == s.now && !env.deliveryThrows
    ensures NoLocks(steps)
    ensures IsRun(p.c, s, steps)
    ensures DeliveryDone(p, s, End(p.c, s, steps), w, job, env)
  {
    PostsRun(p, s, w, 0);
    var posts := PostSteps(p, w, 0);
    var posted := End(p.c, s, posts);
    var rest, s' := SaveRun(p, posted, w, job, env);
    RunsCompose(p.c, s, posts, rest);
    steps := posts + rest;
    DoneFromPosted(p, s, posted, s', w, job, env);
  }

  // One step that leads to a failure to handle, then the write-back.
  lemma FailureRun(c: Config, s: State, w: WorkerId, job: Job, env: Environment, step: Step) returns (steps: seq<Step>)
    requires step == FailReading(w) || step == ThrowInDelivery(w)
    requires Enabled(c, s, step) && IsJobOf(job, s.workers[w]) && env.now == s.now
    ensures NoLocks(steps)
    ensures IsRun(c, s, steps)
    ensures var s' := End(c, s, steps);
            PassEnded(s, s', w) && s'.log == s.log
            && s'.table == WriteVerdict(c, s.table, job, FailureVerdict(c, job.retrySnapshot), env)
  {
    var s1 := Apply(c, s, step);
    WriteBackRun(c, s1, w, job, env);
    Prepend(c, s, step, [WriteBack(w, RetryDate(c, job, env))]);
    steps := [step] + [WriteBack(w, RetryDate(c, job, env))];
    assert s1.workers - {w} == s.workers - {w};
  }

  // A pass that has its list.
  lemma RoutedRun(c: Config, s: State, w: WorkerId, job: Job, env: Environment) returns (steps: seq<Step>)
    requires w in s.workers && s.workers[w].phase == Routed(job.subs) && Distinct(job.subs)
    requires IsJobOf(job, s.workers[w]) && env.now == s.now
    ensures NoLocks(steps)
    ensures IsRun(c, s, steps)
    ensures var s' := End(c, s, steps);
            PassEnded(s, s', w)
            && s'.log == PassLog(c, s.table, s.log, job, env)
            && s'.table == WriteVerdict(c, s.table, job, PassVerdict(c, s.table, s.log, job, env), env)
  {
    if job.subs == [] {
      WriteBackRun(c, s, w, job, env);
      steps := [WriteBack(w, RetryDate(c, job, env))];
    } else if env.readFails {
      steps := FailureRun(c, s, w, job, env, FailReading(w));
    } else {
      var p := PassOf(c, s.log, job, env);
      ReadOne(c, s, w, job, env);
      var s1 := Apply(c, s, ReadStates(w));
      var rest;
      if env.deliveryThrows {
        rest := FailureRun(c, s1, w, job, env, ThrowInDelivery(w));
      } else {
        rest := DeliveryRun(p, s1, w, job, env);
      }
      Prepend(c, s, ReadStates(w), rest);
      steps := [ReadStates(w)] + rest;
      assert s1.workers - {w} == s.workers - {w};
    }
  }

  lemma ReadOne(c: Config, s: State, w: WorkerId, job: Job, env: Environment)
    requires w in s.workers && s.workers[w].phase == Routed(job.subs) && job.subs != []
    requires IsJobOf(job, s.workers[w])
    ensures Enabled(c, s, ReadStates(w))
    ensures var s1 := Apply(c, s, ReadStates(w));
            && s1 == s.(workers := s1.workers)
            && s1.workers - {w} == s.workers - {w}
            && Posting(PassOf(c, s.log, job, env), s1, w, 0)
            && IsJobOf(job, s1.workers[w]) && s1.workers[w].phase.Delivering?
  {
  }

  // The imperative pass and the protocol agree: from any state in which a pass has just locked
  // its message, the protocol has a run that leaves both tables exactly as
  // ProcessSingleMessage does, whatever fails on the way.
  lemma PassIsRun(c: Config, s: State, w: WorkerId, job: Job, env: Environment) returns (steps: seq<Step>)
    requires w in s.workers && s.workers[w].phase == Locked && Distinct(job.subs)
    requires IsJobOf(job, s.workers[w]) && env.now == s.now
    ensures NoLocks(steps)
    ensures IsRun(c, s, steps)
    ensures var s' := End(c, s, steps);
            PassEnded(s, s', w)
            && s'.log == PassLog(c, s.table, s.log, job, env)
            && s'.table == WriteVerdict(c, s.table, job, PassVerdict(c, s.table, s.log, job, env), env)
  {
    var s1 := Apply(c, s, Route(w, job.subs));
    var rest := RoutedRun(c, s1, w, job, env);
    Prepend(c, s, Route(w, job.subs), rest);
    steps := [Route(w, job.subs)] + rest;
    assert s1.workers - {w} == s.workers - {w};
  }
}
