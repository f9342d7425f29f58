// Liveness by construction: left alone with working stores and receivers, the cold path
// finishes every message, in exactly as many batches as the batch size demands.

module Drain {
  import opened OutboxTypes
  import opened MessageTable
  import opened AttemptTable
  import opened Delivery
  import opened Protocol
  import opened Conservation
  import opened AttemptInvariant
  import opened Reachability
  import opened Pipeline
  import opened PassOutcome
  import Backoff

  type Lists = MessageId -> seq<SubscriptionId>

  function Unfinished(t: Table): set<MessageId> {
    set id | id in t && !t[id].Terminal()
  }

  // Every lease has ended and every retry is due.
  predicate AllDue(t: Table, now: Instant) {
    forall id :: id in t && !t[id].Terminal() ==> LeaseFree(t[id], now) && RetryDue(t[id], now)
  }

  ghost predicate Exhausts(c: Config, log: AttemptLog, m: MessageId, subs: seq<SubscriptionId>) {
    exists sub :: sub in subs && Count(log, m, sub) > c.maxRetries(sub) && !HasSuccess(log, m, sub)
  }

  function Working(now: Instant): Environment {
    Environment(false, false, _ => Success, Stored, now, Backoff.DEFAULTS, 0.0)
  }

  // ---- One pass with everything working ---------------------------------------------------

  // With every POST accepted and the rows saved, a list dead-letters exactly when it has a
  // subscription that was out of retries at the read.
  lemma AcceptedVerdict(c: Config, log: AttemptLog, m: MessageId, subs: seq<SubscriptionId>, results: ResultMap,
                        retrySnapshot: nat)
    requires subs != [] && AllAccepted(results) && PassComplete(c, subs, States(log, m, subs), results)
    ensures Decide(c, subs, States(log, m, subs), results, true, retrySnapshot)
         == if Exhausts(c, log, m, subs) then DeadLetter else Deliver
  {
    var states := States(log, m, subs);
    DecisionMeaning(c, subs, states, results, true, retrySnapshot);
    forall sub | sub in subs
      ensures SlotOf(c, states, results, sub) != FailedNow
      ensures SlotOf(c, states, results, sub) == Exhausted
              <==> Count(log, m, sub) > c.maxRetries(sub) && !HasSuccess(log, m, sub)
    {
      StateFacts(log, m, subs, sub);
    }
  }

  lemma WorkingPass(c: Config, t: Table, log: AttemptLog, job: Job, now: Instant)
    requires LogOk(c, log) && job.id in t
    ensures PassVerdict(c, t, log, job, Working(now))
        == if Exhausts(c, log, job.id, job.subs) then DeadLetter else Deliver
    ensures forall m, sub :: m != job.id ==> SamePair(log, PassLog(c, t, log, job, Working(now)), m, sub)
  {
    if job.subs != [] {
      var p := PassOf(c, log, job, Working(now));
      NoConflict(c, log, t, job, Working(now));
      AcceptedVerdict(c, log, job.id, job.subs, p.Results(), job.retrySnapshot);
    }
    forall m, sub | m != job.id ensures SamePair(log, PassLog(c, t, log, job, Working(now)), m, sub) {
      PassLogElsewhere(c, t, log, job, Working(now), m, sub);
    }
  }

  lemma PassLogElsewhere(c: Config, t: Table, log: AttemptLog, job: Job, env: Environment, m: MessageId,
                         sub: SubscriptionId)
    requires m != job.id
    ensures SamePair(log, PassLog(c, t, log, job, env), m, sub)
  {
  }

  predicate AllAccepted(results: ResultMap) {
    forall sub :: sub in results ==> results[sub] == Success
  }

  // ---- A draining run -----------------------------------------------------------------------

  function ColdLocks(steps: seq<Step>): nat {
    if steps == [] then 0 else (if steps[0].ColdLock? then 1 else 0) + ColdLocks(steps[1..])
  }

  function MessagesOf(workers: map<WorkerId, Worker>): set<MessageId> {
    set w | w in workers :: workers[w].messageId
  }

  // Stores work, receivers accept, routing gives each message its list; time may pass.
  predicate WorkStep(s: State, step: Step, lists: Lists) {
    match step
    case Route(w, subs) => w in s.workers && subs == lists(s.workers[w].messageId)
    case ReadStates(_) => true
    case Post(_, _, acceptedByReceiver, result) => acceptedByReceiver && result == Success
    case Save(_, outcome) => outcome == Stored
    case WriteBack(_, _) => true
    case Tick(_) => true
    case _ => false
  }

  // Cold batches, each taken when the passes of the one before have ended, and in between the
  // work of the passes of a batch, interleaved in any way.
  ghost predicate DrainSteps(c: Config, s: State, steps: seq<Step>, o: LockOptions, lists: Lists)
    requires IsRun(c, s, steps)
    decreases |steps|
  {
    steps == [] ||
    (&& (if steps[0].ColdLock? then s.workers == map[] && steps[0].options == o && steps[0].skip == {}
         else WorkStep(s, steps[0], lists))
     && DrainSteps(c, Apply(c, s, steps[0]), steps[1..], o, lists))
  }

  // What became of a message: finished with the right verdict, or untouched.
  ghost predicate FinishedRightly(c: Config, s: State, s': State, id: MessageId, subs: seq<SubscriptionId>)
    requires id in s.table && id in s'.table
  {
    && s'.table[id].Terminal()
    && (s'.table[id].status == DeadLettered <==> Exhausts(c, s.log, id, subs))
  }

  ghost predicate Untouched(s: State, s': State, id: MessageId)
    requires id in s.table && id in s'.table
  {
    s'.table[id] == s.table[id] && forall sub :: SamePair(s.log, s'.log, id, sub)
  }

  // What the messages taken have become, and that no other was touched.
  ghost predicate BatchResult(c: Config, s: State, s': State, taken: set<MessageId>, lists: Lists) {
    && s'.table.Keys == s.table.Keys && s'.now >= s.now
    && forall id :: id in s.table ==>
         if id in taken then FinishedRightly(c, s, s', id, lists(id)) else Untouched(s, s', id)
  }

  // ---- Invariant ------------------------------------------------------------------------------

  ghost predicate PairsKept(log: AttemptLog, log': AttemptLog, m: MessageId) {
    forall sub :: SamePair(log, log', m, sub)
  }

  // How far a pass has come with its list, given what the log held of its message at the start.
  ghost predicate OnCourse(c: Config, base: AttemptLog, log: AttemptLog, k: Worker, subs: seq<SubscriptionId>) {
    match k.phase
    case Locked => PairsKept(base, log, k.messageId)
    case Routed(list) => list == subs && PairsKept(base, log, k.messageId)
    case Delivering(list, states, results) =>
      && list == subs && subs != [] && PairsKept(base, log, k.messageId)
      && states == States(base, k.messageId, subs) && AllAccepted(results)
    case Deciding(list, states, results, saved) =>
      && list == subs && subs != [] && saved
      && states == States(base, k.messageId, subs) && AllAccepted(results) && PassComplete(c, subs, states, results)
    case Failing(_) => false
  }

  ghost predicate WorkingOn(c: Config, b: State, t: Table, log: AttemptLog, k: Worker, lists: Lists) {
    && k.messageId in b.table && !b.table[k.messageId].Terminal()
    && Owns(t, k.messageId, k.instance)
    && OnCourse(c, b.log, log, k, lists(k.messageId))
  }

  // Of a message nobody is working on.
  ghost predicate Handled(c: Config, b: State, s: State, id: MessageId, lists: Lists)
    requires id in b.table && id in s.table
  {
    Untouched(b, s, id) || (!b.table[id].Terminal() && FinishedRightly(c, b, s, id, lists(id)))
  }

  ghost predicate OneEach(workers: map<WorkerId, Worker>) {
    forall v, w | v in workers && w in workers :: (workers[v].messageId == workers[w].messageId ==> v == w)
  }

  // b is where the drain began.
  ghost predicate DrainInv(c: Config, b: State, s: State, lists: Lists) {
    && s.table.Keys == b.table.Keys && s.now >= b.now
    && AtWork(c, b, s, lists)
    && RestHandled(c, b, s, lists)
  }

  ghost predicate AtWork(c: Config, b: State, s: State, lists: Lists) {
    OneEach(s.workers) && forall w :: w in s.workers ==> WorkingOn(c, b, s.table, s.log, s.workers[w], lists)
  }

  ghost predicate RestHandled(c: Config, b: State, s: State, lists: Lists) {
    forall id :: id in b.table && id in s.table && id !in MessagesOf(s.workers) ==> Handled(c, b, s, id, lists)
  }

  // Unfinished and not being worked on.
  function Waiting(s: State): set<MessageId> {
    Unfinished(s.table) - MessagesOf(s.workers)
  }

  lemma StatesKept(log: AttemptLog, log': AttemptLog, m: MessageId, subs: seq<SubscriptionId>, c: Config)
    requires PairsKept(log, log', m)
    ensures States(log', m, subs) == States(log, m, subs)
  {
    forall sub | sub in subs
      ensures RowsOf(log', m, sub) == {} <==> RowsOf(log, m, sub) == {}
      ensures Count(log', m, sub) == Count(log, m, sub) && (HasSuccess(log', m, sub) <==> HasSuccess(log, m, sub))
    {
      SamePairSameGroup(c, log, log', m, sub);
    }
  }

  // ---- Work -----------------------------------------------------------------------------------

  // A step of one pass that leaves the table and all other passes alone.
  ghost predicate MovesOnly(s: State, s': State, w: WorkerId) {
    && s'.table == s.table && s'.now == s.now
    && w in s.workers && w in s'.workers && s'.workers.Keys == s.workers.Keys
    && s'.workers[w].messageId == s.workers[w].messageId && s'.workers[w].instance == s.workers[w].instance
    && (forall v :: v in s.workers && v != w ==> s'.workers[v] == s.workers[v])
    && (forall m :: m != s.workers[w].messageId ==> PairsKept(s.log, s'.log, m))
  }

  lemma SameMessages(workers: map<WorkerId, Worker>, workers': map<WorkerId, Worker>)
    requires workers'.Keys == workers.Keys
    requires forall w :: w in workers ==> workers'[w].messageId == workers[w].messageId
    ensures MessagesOf(workers') == MessagesOf(workers)
  {
    assert forall id :: id in MessagesOf(workers) ==> exists w :: w in workers' && workers'[w].messageId == id;
  }

  lemma StillOneEach(workers: map<WorkerId, Worker>, workers': map<WorkerId, Worker>)
    requires OneEach(workers) && workers'.Keys <= workers.Keys
    requires forall w :: w in workers' ==> workers'[w].messageId == workers[w].messageId
    ensures OneEach(workers')
  {
  }

  lemma MoveKeeps(c: Config, b: State, s: State, s': State, w: WorkerId, lists: Lists)
    requires DrainInv(c, b, s, lists) && MovesOnly(s, s', w)
    requires OnCourse(c, b.log, s'.log, s'.workers[w], lists(s.workers[w].messageId))
    ensures DrainInv(c, b, s', lists) && Waiting(s') == Waiting(s)
  {
    SameMessages(s.workers, s'.workers);
    AllWorking(c, b, s, s', w, lists);
    AllHandled(c, b, s, s', w, lists);
  }

  lemma AllWorking(c: Config, b: State, s: State, s': State, w: WorkerId, lists: Lists)
    requires AtWork(c, b, s, lists) && MovesOnly(s, s', w)
    requires OnCourse(c, b.log, s'.log, s'.workers[w], lists(s.workers[w].messageId))
    ensures AtWork(c, b, s', lists)
  {
    StillOneEach(s.workers, s'.workers);
    forall v | v in s'.workers ensures WorkingOn(c, b, s'.table, s'.log, s'.workers[v], lists) {
      MovedWorking(c, b, s, s', w, v, lists);
    }
  }

  lemma AllHandled(c: Config, b: State, s: State, s': State, w: WorkerId, lists: Lists)
    requires RestHandled(c, b, s, lists) && MovesOnly(s, s', w)
    ensures RestHandled(c, b, s', lists)
  {
    SameMessages(s.workers, s'.workers);
    assert s.workers[w].messageId in MessagesOf(s.workers);
    forall id | id in b.table && id in s'.table && id !in MessagesOf(s'.workers) ensures Handled(c, b, s', id, lists) {
      HandledKept(c, b, s, s', id, lists);
    }
  }

  lemma MovedWorking(c: Config, b: State, s: State, s': State, w: WorkerId, v: WorkerId, lists: Lists)
    requires v in s.workers && WorkingOn(c, b, s.table, s.log, s.workers[v], lists) && MovesOnly(s, s', w)
    requires v != w ==> s.workers[v].messageId != s.workers[w].messageId
    requires OnCourse(c, b.log, s'.log, s'.workers[w], lists(s.workers[w].messageId))
    ensures WorkingOn(c, b, s'.table, s'.log, s'.workers[v], lists)
  {
    if v != w {
      OthersOnCourse(c, b.log, s.log, s'.log, s.workers[v], lists(s.workers[v].messageId));
    }
  }

  lemma OthersOnCourse(c: Config, base: AttemptLog, log: AttemptLog, log': AttemptLog, k: Worker,
                       subs: seq<SubscriptionId>)
    requires OnCourse(c, base, log, k, subs) && PairsKept(log, log', k.messageId)
    ensures OnCourse(c, base, log', k, subs)
  {
    PairsKeptTwice(base, log, log', k.messageId);
  }

  lemma PairsKeptTwice(log0: AttemptLog, log1: AttemptLog, log2: AttemptLog, m: MessageId)
    requires PairsKept(log1, log2, m)
    ensures PairsKept(log0, log1, m) ==> PairsKept(log0, log2, m)
  {
    if PairsKept(log0, log1, m) {
      forall sub ensures SamePair(log0, log2, m, sub) {
        assert SamePair(log0, log1, m, sub) && SamePair(log1, log2, m, sub);
      }
    }
  }

  lemma HandledKept(c: Config, b: State, s: State, s': State, id: MessageId, lists: Lists)
    requires id in b.table && id in s.table && id in s'.table && s'.table[id] == s.table[id]
    requires Handled(c, b, s, id, lists) && PairsKept(s.log, s'.log, id)
    ensures Handled(c, b, s', id, lists)
  {
    PairsKeptTwice(b.log, s.log, s'.log, id);
    if Untouched(b, s, id) {
      assert PairsKept(b.log, s.log, id);
    }
  }

  lemma WorkRoute(c: Config, b: State, s: State, w: WorkerId, subs: seq<SubscriptionId>, lists: Lists)
    requires DrainInv(c, b, s, lists) && Enabled(c, s, Route(w, subs)) && subs == lists(s.workers[w].messageId)
    ensures DrainInv(c, b, Apply(c, s, Route(w, subs)), lists) && Waiting(Apply(c, s, Route(w, subs))) == Waiting(s)
  {
    var k := s.workers[w];
    assert WorkingOn(c, b, s.table, s.log, k, lists);
    PhaseMoves(s, w, Routed(subs), s.past);
    MoveKeeps(c, b, s, Apply(c, s, Route(w, subs)), w, lists);
  }

  lemma WorkRead(c: Config, b: State, s: State, w: WorkerId, lists: Lists)
    requires DrainInv(c, b, s, lists) && Enabled(c, s, ReadStates(w))
    ensures DrainInv(c, b, Apply(c, s, ReadStates(w)), lists) && Waiting(Apply(c, s, ReadStates(w))) == Waiting(s)
  {
    var k := s.workers[w];
    assert WorkingOn(c, b, s.table, s.log, k, lists);
    StatesKept(b.log, s.log, k.messageId, k.phase.subs, c);
    PhaseMoves(s, w, Delivering(k.phase.subs, States(s.log, k.messageId, k.phase.subs), map[]), s.past);
    MoveKeeps(c, b, s, Apply(c, s, ReadStates(w)), w, lists);
  }

  lemma WorkPost(c: Config, b: State, s: State, w: WorkerId, sub: SubscriptionId, lists: Lists)
    requires DrainInv(c, b, s, lists) && Enabled(c, s, Post(w, sub, true, Success))
    ensures DrainInv(c, b, Apply(c, s, Post(w, sub, true, Success)), lists)
        && Waiting(Apply(c, s, Post(w, sub, true, Success))) == Waiting(s)
  {
    var k := s.workers[w];
    assert WorkingOn(c, b, s.table, s.log, k, lists);
    PostMoves(s, w, sub);
    PostOnCourse(c, b.log, s.log, k, lists(k.messageId), sub);
    MoveKeeps(c, b, s, Apply(c, s, Post(w, sub, true, Success)), w, lists);
  }

  lemma WorkSave(c: Config, b: State, s: State, w: WorkerId, lists: Lists)
    requires DrainInv(c, b, s, lists) && Enabled(c, s, Save(w, Stored))
    ensures DrainInv(c, b, Apply(c, s, Save(w, Stored)), lists) && Waiting(Apply(c, s, Save(w, Stored))) == Waiting(s)
  {
    var k := s.workers[w];
    assert WorkingOn(c, b, s.table, s.log, k, lists);
    SaveMoves(s, w);
    MoveKeeps(c, b, s, Apply(c, s, Save(w, Stored)), w, lists);
  }

  lemma PhaseMoves(s: State, w: WorkerId, p: Phase, past: History)
    requires w in s.workers
    ensures MovesOnly(s, s.(workers := InPhase(s.workers, w, p), past := past), w)
  {
  }

  lemma PostOnCourse(c: Config, base: AttemptLog, log: AttemptLog, k: Worker, subs: seq<SubscriptionId>,
                     sub: SubscriptionId)
    requires OnCourse(c, base, log, k, subs) && k.phase.Delivering?
    ensures var p := Delivering(k.phase.subs, k.phase.states, k.phase.results[sub := Success]);
            OnCourse(c, base, log, k.(phase := p), subs)
  {
  }

  lemma PostMoves(s: State, w: WorkerId, sub: SubscriptionId)
    requires InDelivery(s, w)
    ensures MovesOnly(s, ApplyPost(s, w, sub, true, Success), w)
  {
  }

  lemma SaveMoves(s: State, w: WorkerId)
    requires InDelivery(s, w)
    requires Insertable(s.log, RowsToSave(s.workers[w]), s.table.Keys)
    ensures MovesOnly(s, ApplySave(s, w, Stored), w)
  {
    var log' := ApplySave(s, w, Stored).log;
    forall m | m != s.workers[w].messageId ensures PairsKept(s.log, log', m) {
      forall sub ensures SamePair(s.log, log', m, sub) {
      }
    }
  }

  lemma WorkTick(c: Config, b: State, s: State, now: Instant, lists: Lists)
    requires DrainInv(c, b, s, lists) && now >= s.now
    ensures DrainInv(c, b, s.(now := now), lists) && Waiting(s.(now := now)) == Waiting(s)
  {
    var s' := s.(now := now);
    forall w | w in s'.workers ensures WorkingOn(c, b, s'.table, s'.log, s'.workers[w], lists) {
      assert WorkingOn(c, b, s.table, s.log, s.workers[w], lists);
    }
    forall id | id in b.table && id in s'.table && id !in MessagesOf(s'.workers) ensures Handled(c, b, s', id, lists) {
      assert Handled(c, b, s, id, lists);
    }
  }

  // The verdict of a pass that met no failure.
  lemma WorkVerdict(c: Config, base: AttemptLog, log: AttemptLog, k: Worker, subs: seq<SubscriptionId>)
    requires OnCourse(c, base, log, k, subs)
    requires k.phase.Deciding? || (k.phase.Routed? && k.phase.subs == [])
    ensures VerdictOf(c, k) == if Exhausts(c, base, k.messageId, subs) then DeadLetter else Deliver
  {
    if k.phase.Deciding? {
      AcceptedVerdict(c, base, k.messageId, subs, k.phase.results, k.retrySnapshot);
    }
  }

  lemma WorkWriteBack(c: Config, b: State, s: State, w: WorkerId, nextRetryAt: Instant, lists: Lists)
    requires RowInv(s) && DrainInv(c, b, s, lists) && Enabled(c, s, WriteBack(w, nextRetryAt))
    ensures DrainInv(c, b, Apply(c, s, WriteBack(w, nextRetryAt)), lists)
    ensures Waiting(Apply(c, s, WriteBack(w, nextRetryAt))) == Waiting(s)
  {
    var k := s.workers[w];
    assert WorkingOn(c, b, s.table, s.log, k, lists);
    WorkVerdict(c, b.log, s.log, k, lists(k.messageId));
    WorkEnds(c, b, s, w, VerdictOf(c, k), CauseOf(c, w, k), nextRetryAt, lists);
  }

  // What the write-back of a finishing pass does to the table and the passes.
  ghost predicate EndsOnly(s: State, s': State, w: WorkerId, status: MessageStatus) {
    && s'.now == s.now && s'.log == s.log && w in s.workers && s'.workers == s.workers - {w}
    && s'.table.Keys == s.table.Keys && s.workers[w].messageId in s.table
    && s'.table[s.workers[w].messageId].status == status
    && forall id :: id in s.table && id != s.workers[w].messageId ==> s'.table[id] == s.table[id]
  }

  lemma WorkEnds(c: Config, b: State, s: State, w: WorkerId, verdict: Verdict, cause: DeadCause, nextRetryAt: Instant,
                 lists: Lists)
    requires DrainInv(c, b, s, lists) && ReadyToWriteBack(s, w)
    requires var m := s.workers[w].messageId; verdict == if Exhausts(c, b.log, m, lists(m)) then DeadLetter else Deliver
    ensures DrainInv(c, b, ApplyVerdict(s, w, verdict, cause, nextRetryAt), lists)
    ensures Waiting(ApplyVerdict(s, w, verdict, cause, nextRetryAt)) == Waiting(s)
  {
    assert WorkingOn(c, b, s.table, s.log, s.workers[w], lists);
    EndKeeps(c, b, s, ApplyVerdict(s, w, verdict, cause, nextRetryAt), w, lists);
  }

  lemma EndKeeps(c: Config, b: State, s: State, s': State, w: WorkerId, lists: Lists)
    requires DrainInv(c, b, s, lists) && w in s.workers
    requires var m := s.workers[w].messageId;
             EndsOnly(s, s', w, if Exhausts(c, b.log, m, lists(m)) then DeadLettered else Delivered)
    ensures DrainInv(c, b, s', lists) && Waiting(s') == Waiting(s)
  {
    assert WorkingOn(c, b, s.table, s.log, s.workers[w], lists);
    OthersAtWork(c, b, s, s', w, lists);
    OneMoreHandled(c, b, s, s', w, lists);
    WaitingKept(s, s', w);
  }

  lemma OthersAtWork(c: Config, b: State, s: State, s': State, w: WorkerId, lists: Lists)
    requires AtWork(c, b, s, lists) && w in s.workers && s'.workers == s.workers - {w} && s'.log == s.log
    requires s'.table.Keys == s.table.Keys
    requires forall id :: id in s.table && id != s.workers[w].messageId ==> s'.table[id] == s.table[id]
    ensures AtWork(c, b, s', lists)
  {
    StillOneEach(s.workers, s'.workers);
    forall v | v in s'.workers ensures WorkingOn(c, b, s'.table, s'.log, s'.workers[v], lists) {
      assert WorkingOn(c, b, s.table, s.log, s.workers[v], lists);
    }
  }

  lemma OneMoreHandled(c: Config, b: State, s: State, s': State, w: WorkerId, lists: Lists)
    requires RestHandled(c, b, s, lists) && OneEach(s.workers) && w in s.workers
    requires WorkingOn(c, b, s.table, s.log, s.workers[w], lists)
    requires var m := s.workers[w].messageId;
             EndsOnly(s, s', w, if Exhausts(c, b.log, m, lists(m)) then DeadLettered else Delivered)
    ensures RestHandled(c, b, s', lists)
  {
    MessagesSplit(s.workers, w);
    forall id | id in b.table && id in s'.table && id !in MessagesOf(s'.workers) ensures Handled(c, b, s', id, lists) {
      if id != s.workers[w].messageId {
        HandledKept(c, b, s, s', id, lists);
      }
    }
  }

  lemma WaitingKept(s: State, s': State, w: WorkerId)
    requires w in s.workers && OneEach(s.workers) && s'.workers == s.workers - {w}
    requires s'.table.Keys == s.table.Keys && s.workers[w].messageId in s.table
        && s'.table[s.workers[w].messageId].Terminal()
    requires forall id :: id in s.table && id != s.workers[w].messageId ==> s'.table[id] == s.table[id]
    ensures Waiting(s') == Waiting(s)
  {
    MessagesSplit(s.workers, w);
  }

  lemma MessagesSplit(workers: map<WorkerId, Worker>, w: WorkerId)
    requires w in workers && OneEach(workers)
    ensures MessagesOf(workers) == {workers[w].messageId} + MessagesOf(workers - {w})
    ensures workers[w].messageId !in MessagesOf(workers - {w})
  {
    forall id | id in MessagesOf(workers) ensures id == workers[w].messageId || id in MessagesOf(workers - {w}) {
      var v :| v in workers && workers[v].messageId == id;
      assert v != w ==> v in workers - {w};
    }
  }

  lemma DrainWork(c: Config, b: State, s: State, step: Step, lists: Lists)
    requires RowInv(s) && DrainInv(c, b, s, lists) && Enabled(c, s, step) && WorkStep(s, step, lists)
    ensures DrainInv(c, b, Apply(c, s, step), lists) && Waiting(Apply(c, s, step)) == Waiting(s)
  {
    if step.Route? {
      WorkRoute(c, b, s, step.w, step.subs, lists);
    } else if step.ReadStates? {
      WorkRead(c, b, s, step.w, lists);
    } else if step.Post? {
      WorkPost(c, b, s, step.w, step.subscription, lists);
    } else if step.Save? {
      WorkSave(c, b, s, step.w, lists);
    } else if step.Tick? {
      WorkTick(c, b, s, step.now, lists);
    } else {
      WorkWriteBack(c, b, s, step.w, step.nextRetryAt, lists);
    }
  }

  // ---- Taking a batch -------------------------------------------------------------------------

  // With every lease ended, ordering and skip ids exclude nothing.
  lemma EveryoneIsCandidate(t: Table, o: LockOptions, now: Instant)
    requires RowsOk(t) && AllDue(t, now) && o.tenantFilter.None?
    ensures Candidates(t, o, {}, now) == Unfinished(t)
  {
    forall id | id in t ensures Candidate(t, id, o, {}, now) <==> !t[id].Terminal() {
      assert RowOk(t[id]);
      if !t[id].Terminal() {
        forall other | other in t ensures !LiveLock(t[other], now) {
          assert RowOk(t[other]);
        }
      }
    }
  }

  lemma MessagesArePasses(workers: map<WorkerId, Worker>, passes: map<WorkerId, MessageId>)
    requires workers.Keys == passes.Keys
    requires forall w :: w in passes ==> workers[w].messageId == passes[w]
    ensures MessagesOf(workers) == passes.Values
  {
    forall id | id in passes.Values ensures id in MessagesOf(workers) {
      var w :| w in passes && passes[w] == id;
      assert w in workers;
    }
  }

  // With nobody at work, what is unfinished was not touched and is still due.
  lemma StillDue(c: Config, b: State, s: State, lists: Lists)
    requires DrainInv(c, b, s, lists) && s.workers == map[] && AllDue(b.table, b.now)
    ensures AllDue(s.table, s.now)
    ensures forall id :: id in s.table && !s.table[id].Terminal() ==> Untouched(b, s, id)
  {
    forall id | id in s.table && !s.table[id].Terminal()
      ensures Untouched(b, s, id) && LeaseFree(s.table[id], s.now) && RetryDue(s.table[id], s.now)
    {
      assert Handled(c, b, s, id, lists);
    }
  }

  lemma DrainLock(c: Config, b: State, s: State, step: Step, lists: Lists)
    requires RowInv(s) && DrainInv(c, b, s, lists) && s.workers == map[] && AllDue(b.table, b.now)
    requires Enabled(c, s, step) && step.ColdLock? && step.options.tenantFilter.None? && step.skip == {}
    ensures DrainInv(c, b, Apply(c, s, step), lists)
    ensures Waiting(Apply(c, s, step)) == Unfinished(s.table) - step.passes.Values
    ensures IsOldest(s.table, Unfinished(s.table), step.options.batchSize, step.passes.Values)
  {
    StillDue(c, b, s, lists);
    EveryoneIsCandidate(s.table, step.options, s.now);
    ColdLockTakes(c, s, step.instance, step.options, step.skip, step.passes);
    TakenAreWorkedOn(c, b, s, step.instance, step.options.visibility, step.passes, lists);
  }

  lemma TakenAreWorkedOn(c: Config, b: State, s: State, instance: InstanceId, visibility: int,
                         passes: map<WorkerId, MessageId>, lists: Lists)
    requires DrainInv(c, b, s, lists) && s.workers == map[] && Injective(passes)
    requires forall w :: w in passes ==> passes[w] in s.table && !s.table[passes[w]].Terminal()
    requires forall id :: id in s.table && !s.table[id].Terminal() ==> Untouched(b, s, id)
    ensures DrainInv(c, b, ApplyColdLock(s, instance, visibility, passes), lists)
    ensures Waiting(ApplyColdLock(s, instance, visibility, passes)) == Unfinished(s.table) - passes.Values
  {
    TakenAtWork(c, b, s, instance, visibility, passes, lists);
    RestStillHandled(c, b, s, instance, visibility, passes, lists);
    BatchTable(s, instance, visibility, passes);
    BatchUnfinished(s, instance, visibility, passes);
    TakenMessages(s, instance, visibility, passes);
  }

  lemma TakenMessages(s: State, instance: InstanceId, visibility: int, passes: map<WorkerId, MessageId>)
    requires s.workers == map[] && forall w :: w in passes ==> passes[w] in s.table
    ensures MessagesOf(ApplyColdLock(s, instance, visibility, passes).workers) == passes.Values
  {
    BatchWorkers(s, instance, visibility, passes);
    MessagesArePasses(ApplyColdLock(s, instance, visibility, passes).workers, passes);
  }

  lemma TakenAtWork(c: Config, b: State, s: State, instance: InstanceId, visibility: int,
                    passes: map<WorkerId, MessageId>, lists: Lists)
    requires s.table.Keys == b.table.Keys && s.workers == map[] && Injective(passes)
    requires forall w :: w in passes ==> passes[w] in s.table && !s.table[passes[w]].Terminal()
    requires forall id :: id in s.table && !s.table[id].Terminal() ==> Untouched(b, s, id)
    ensures AtWork(c, b, ApplyColdLock(s, instance, visibility, passes), lists)
  {
    var s' := ApplyColdLock(s, instance, visibility, passes);
    BatchTable(s, instance, visibility, passes);
    BatchWorkers(s, instance, visibility, passes);
    forall w | w in s'.workers ensures WorkingOn(c, b, s'.table, s'.log, s'.workers[w], lists) {
      assert passes[w] in passes.Values;
      JustTaken(c, b, s, passes.Values, passes[w], instance, s.now + visibility, lists);
    }
  }

  lemma RestStillHandled(c: Config, b: State, s: State, instance: InstanceId, visibility: int,
                         passes: map<WorkerId, MessageId>, lists: Lists)
    requires s.workers == map[] && RestHandled(c, b, s, lists)
    requires forall w :: w in passes ==> passes[w] in s.table
    ensures RestHandled(c, b, ApplyColdLock(s, instance, visibility, passes), lists)
  {
    var s' := ApplyColdLock(s, instance, visibility, passes);
    BatchTable(s, instance, visibility, passes);
    TakenMessages(s, instance, visibility, passes);
    forall id | id in b.table && id in s'.table && id !in passes.Values ensures Handled(c, b, s', id, lists) {
      HandledKept(c, b, s, s', id, lists);
    }
  }

  // What a cold batch does to a table nobody is working on.
  lemma BatchTable(s: State, instance: InstanceId, visibility: int, passes: map<WorkerId, MessageId>)
    requires forall w :: w in passes ==> passes[w] in s.table
    ensures var s' := ApplyColdLock(s, instance, visibility, passes);
            && s'.table == LockAll(s.table, passes.Values, instance, s.now + visibility)
            && s'.now == s.now && s'.log == s.log
  {
  }

  lemma BatchUnfinished(s: State, instance: InstanceId, visibility: int, passes: map<WorkerId, MessageId>)
    requires forall w :: w in passes ==> passes[w] in s.table && !s.table[passes[w]].Terminal()
    ensures Unfinished(ApplyColdLock(s, instance, visibility, passes).table) == Unfinished(s.table)
  {
    LockedStayUnfinished(s.table, passes, instance, s.now + visibility);
  }

  lemma BatchWorkers(s: State, instance: InstanceId, visibility: int, passes: map<WorkerId, MessageId>)
    requires s.workers == map[] && forall w :: w in passes ==> passes[w] in s.table
    ensures var s' := ApplyColdLock(s, instance, visibility, passes);
            && s'.workers.Keys == passes.Keys
            && (forall w :: w in passes ==>
                  s'.workers[w] == StartWorker(s.table, passes[w], instance, s.now + visibility))
  {
  }

  lemma LockedStayUnfinished(t: Table, passes: map<WorkerId, MessageId>, instance: InstanceId, until: Instant)
    requires forall w :: w in passes ==> passes[w] in t && !t[passes[w]].Terminal()
    ensures Unfinished(LockAll(t, passes.Values, instance, until)) == Unfinished(t)
  {
  }

  lemma JustTaken(c: Config, b: State, s: State, taken: set<MessageId>, id: MessageId, instance: InstanceId,
                  until: Instant, lists: Lists)
    requires id in taken && id in s.table && id in b.table && !s.table[id].Terminal() && Untouched(b, s, id)
    ensures var k := StartWorker(s.table, id, instance, until);
            WorkingOn(c, b, LockAll(s.table, taken, instance, until), s.log, k, lists)
  {
  }

  // ---- Every draining run ---------------------------------------------------------------------

  // How many of n messages are left after k batches of at most b.
  function Left(n: nat, b: nat, k: nat): nat {
    if k == 0 then n else Left(n - Min(b, n), b, k - 1)
  }

  lemma {:induction false} LeftIs(n: nat, b: nat, k: nat)
    ensures Left(n, b, k) == if n <= k * b then 0 else n - k * b
    decreases k
  {
    if k > 0 {
      LeftIs(n - Min(b, n), b, k - 1);
      assert k * b == (k - 1) * b + b;
    }
  }

  // One step: what waits shrinks by a batch when one is taken, and only then.
  lemma DrainStep(c: Config, b: State, s: State, step: Step, o: LockOptions, lists: Lists)
    requires RowInv(s) && DrainInv(c, b, s, lists) && AllDue(b.table, b.now) && o.tenantFilter.None?
    requires Enabled(c, s, step)
    requires if step.ColdLock? then s.workers == map[] && step.options == o && step.skip == {}
             else WorkStep(s, step, lists)
    ensures DrainInv(c, b, Apply(c, s, step), lists)
    ensures |Waiting(Apply(c, s, step))|
         == |Waiting(s)| - (if step.ColdLock? then Min(o.batchSize, |Waiting(s)|) else 0)
  {
    if step.ColdLock? {
      DrainLock(c, b, s, step, lists);
      BatchLeaves(s.table, Unfinished(s.table), o.batchSize, step.passes.Values);
      assert Waiting(s) == Unfinished(s.table);
    } else {
      DrainWork(c, b, s, step, lists);
    }
  }

  lemma {:induction false} DrainingKeeps(c: Config, b: State, s: State, steps: seq<Step>, o: LockOptions, lists: Lists)
    requires Inv(c, s) && DrainInv(c, b, s, lists) && AllDue(b.table, b.now) && o.tenantFilter.None?
    requires IsRun(c, s, steps) && DrainSteps(c, s, steps, o, lists)
    ensures DrainInv(c, b, End(c, s, steps), lists)
    ensures |Waiting(End(c, s, steps))| == Left(|Waiting(s)|, o.batchSize, ColdLocks(steps))
    decreases |steps|
  {
    if steps != [] {
      InvStep(c, s, steps[0]);
      DrainStep(c, b, s, steps[0], o, lists);
      DrainingKeeps(c, b, Apply(c, s, steps[0]), steps[1..], o, lists);
    }
  }

  lemma BatchLeaves(t: Table, among: set<MessageId>, n: nat, picked: set<MessageId>)
    requires IsOldest(t, among, n, picked)
    ensures |among - picked| == |among| - Min(n, |among|)
  {
    assert among == picked + (among - picked);
  }

  lemma DrainBegins(c: Config, s: State, lists: Lists)
    requires s.workers == map[]
    ensures DrainInv(c, s, s, lists) && Waiting(s) == Unfinished(s.table)
  {
    forall id | id in s.table ensures Handled(c, s, s, id, lists) {
      assert PairsKept(s.log, s.log, id);
    }
  }

  // The messages handled and no longer waiting were finished rightly, the others not touched.
  lemma DrainEnds(c: Config, b: State, s: State, lists: Lists)
    requires DrainInv(c, b, s, lists) && s.workers == map[]
    ensures BatchResult(c, b, s, Unfinished(b.table) - Unfinished(s.table), lists)
    ensures Waiting(s) == Unfinished(s.table)
  {
    forall id | id in b.table
      ensures if id in Unfinished(b.table) - Unfinished(s.table)
              then FinishedRightly(c, b, s, id, lists(id)) else Untouched(b, s, id)
    {
      assert Handled(c, b, s, id, lists);
    }
  }

  // From any reachable state with no pass in flight and everything due, every run of cold
  // batches, whichever eligible rows they pick and however their passes interleave, that ends
  // with no pass in flight: exactly the messages taken are finished, DeadLettered exactly those
  // with an exhausted subscription in their list; and the table is drained if and only if the
  // number of batches times their size reaches the number of unfinished messages.
  lemma EveryDrainTheorem(c: Config, before: seq<Step>, steps: seq<Step>, o: LockOptions, lists: Lists)
    requires IsRun(c, INIT, before)
    requires var s := End(c, INIT, before);
             && s.workers == map[] && AllDue(s.table, s.now) && o.tenantFilter.None?
             && IsRun(c, s, steps) && DrainSteps(c, s, steps, o, lists) && End(c, s, steps).workers == map[]
    ensures var s := End(c, INIT, before);
            var s' := End(c, s, steps);
            && BatchResult(c, s, s', Unfinished(s.table) - Unfinished(s'.table), lists)
            && |Unfinished(s'.table)| == Left(|Unfinished(s.table)|, o.batchSize, ColdLocks(steps))
            && (Unfinished(s'.table) == {} <==> ColdLocks(steps) * o.batchSize >= |Unfinished(s.table)|)
  {
    InvRun(c, INIT, before);
    EveryDrain(c, End(c, INIT, before), steps, o, lists);
  }

  lemma EveryDrain(c: Config, s: State, steps: seq<Step>, o: LockOptions, lists: Lists)
    requires Inv(c, s) && s.workers == map[] && AllDue(s.table, s.now) && o.tenantFilter.None?
    requires IsRun(c, s, steps) && DrainSteps(c, s, steps, o, lists) && End(c, s, steps).workers == map[]
    ensures var s' := End(c, s, steps);
            && BatchResult(c, s, s', Unfinished(s.table) - Unfinished(s'.table), lists)
            && |Unfinished(s'.table)| == Left(|Unfinished(s.table)|, o.batchSize, ColdLocks(steps))
            && (Unfinished(s'.table) == {} <==> ColdLocks(steps) * o.batchSize >= |Unfinished(s.table)|)
  {
    DrainBegins(c, s, lists);
    DrainingKeeps(c, s, s, steps, o, lists);
    DrainEnds(c, s, End(c, s, steps), lists);
    LeftIs(|Unfinished(s.table)|, o.batchSize, ColdLocks(steps));
  }
}
