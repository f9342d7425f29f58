// The hosted service: its hot path, its cold path, and the set of ids in flight on the hot path
// that the cold path is told to skip.

module Processor {
  import opened OutboxTypes
  import opened Protocol
  import opened Leases

  // ---- The service of one instance beside everything else --------------------------------------

  datatype Service = Service(
    core: State,
    hot: set<MessageId>,       // ids in flight on the hot path
    skip: set<MessageId>,      // the last snapshot of them
    cold: set<WorkerId>,       // passes started by the cold path
    recent: set<WorkerId>)     // hot passes started since the snapshot

  datatype Move = TakeHint(id: MessageId) | DropHint(id: MessageId) | Snapshot | Do(step: Step)

  ghost predicate OwnPass(v: Service, me: InstanceId, w: WorkerId) {
    w in v.core.workers && v.core.workers[w].instance == me
  }

  // The cold path awaits the passes of a batch before the next; the hot path removes an id when
  // its pass has ended. (A message is hinted once.)
  ghost predicate CanMove(c: Config, me: InstanceId, v: Service, move: Move) {
    match move
    case TakeHint(_) => true
    case DropHint(id) => forall w :: OwnPass(v, me, w) && w !in v.cold ==> v.core.workers[w].messageId != id
    case Snapshot => true
    case Do(step) =>
      && Enabled(c, v.core, step)
      && (step.HotLock? && step.instance == me ==> step.id in v.hot)
      && (step.ColdLock? && step.instance == me ==>
            step.skip == v.skip && forall w :: OwnPass(v, me, w) ==> w !in v.cold)
  }

  ghost function Moved(c: Config, me: InstanceId, v: Service, move: Move): Service
    requires CanMove(c, me, v, move)
  {
    match move
    case TakeHint(id) => v.(hot := v.hot + {id})
    case DropHint(id) => v.(hot := v.hot - {id})
    case Snapshot => v.(skip := v.hot, recent := {})
    case Do(step) =>
      v.(core := Apply(c, v.core, step),
         cold := if step.ColdLock? && step.instance == me then v.cold + step.passes.Keys else v.cold,
         recent := if step.HotLock? && step.instance == me then v.recent + {step.w} else v.recent)
  }

  ghost predicate IsServiceRun(c: Config, me: InstanceId, v: Service, moves: seq<Move>)
    decreases |moves|
  {
    moves == [] || (CanMove(c, me, v, moves[0]) && IsServiceRun(c, me, Moved(c, me, v, moves[0]), moves[1..]))
  }

  ghost function ServiceEnd(c: Config, me: InstanceId, v: Service, moves: seq<Move>): Service
    requires IsServiceRun(c, me, v, moves)
    decreases |moves|
  {
    if moves == [] then v else ServiceEnd(c, me, Moved(c, me, v, moves[0]), moves[1..])
  }

  const STARTED: Service := Service(INIT, {}, {}, {}, {})

  // ---- What the snapshot covers -----------------------------------------------------------------

  ghost predicate Covered(v: Service, me: InstanceId, w: WorkerId)
    requires w in v.core.workers
  {
    var m := v.core.workers[w].messageId;
    w in v.cold || (m in v.hot && (w in v.recent || m in v.skip))
  }

  ghost predicate ServiceInv(me: InstanceId, v: Service) {
    forall w :: OwnPass(v, me, w) ==> Covered(v, me, w)
  }

  // Where a pass in flight comes from.
  lemma PassOrigin(c: Config, s: State, step: Step, w: WorkerId)
    requires Enabled(c, s, step) && w in Apply(c, s, step).workers
    ensures var k := Apply(c, s, step).workers[w];
            || (w in s.workers && s.workers[w].instance == k.instance && s.workers[w].messageId == k.messageId)
            || (step.HotLock? && step.w == w && step.instance == k.instance && step.id == k.messageId)
            || (step.ColdLock? && w in step.passes && step.instance == k.instance)
  {
    if step.ColdLock? {
      ColdLockTakes(c, s, step.instance, step.options, step.skip, step.passes);
    }
  }

  lemma ServiceStep(c: Config, me: InstanceId, v: Service, move: Move)
    requires ServiceInv(me, v) && CanMove(c, me, v, move)
    ensures ServiceInv(me, Moved(c, me, v, move))
  {
    var v' := Moved(c, me, v, move);
    forall w | OwnPass(v', me, w) ensures Covered(v', me, w) {
      if move.Do? {
        PassOrigin(c, v.core, move.step, w);
      }
      assert OwnPass(v, me, w) ==> Covered(v, me, w);
    }
  }

  lemma {:induction false} ServiceRun(c: Config, me: InstanceId, v: Service, moves: seq<Move>)
    requires ServiceInv(me, v) && IsServiceRun(c, me, v, moves)
    ensures ServiceInv(me, ServiceEnd(c, me, v, moves))
    decreases |moves|
  {
    if moves != [] {
      ServiceStep(c, me, v, moves[0]);
      ServiceRun(c, me, Moved(c, me, v, moves[0]), moves[1..]);
    }
  }

  // In every run of the service, its cold batch respects (H) exactly when it takes no message
  // that a hot pass begun since the snapshot is working on.
  lemma SnapshotTheorem(c: Config, me: InstanceId, moves: seq<Move>, batch: Step)
    requires IsServiceRun(c, me, STARTED, moves)
    requires batch.ColdLock? && batch.instance == me && CanMove(c, me, ServiceEnd(c, me, STARTED, moves), Do(batch))
    ensures var v := ServiceEnd(c, me, STARTED, moves);
            Exclusive(v.core, batch)
            <==> forall w :: OwnPass(v, me, w) && w in v.recent ==> v.core.workers[w].messageId !in batch.passes.Values
  {
    ServiceRun(c, me, STARTED, moves);
    var v := ServiceEnd(c, me, STARTED, moves);
    ColdLockTakes(c, v.core, me, batch.options, batch.skip, batch.passes);
    forall w | OwnPass(v, me, w) && w !in v.recent ensures v.core.workers[w].messageId !in batch.passes.Values {
      assert Covered(v, me, w);
    }
    TakesNone(v.core, me, batch.passes);
    assert Exclusive(v.core, batch) <==> forall w :: OwnPass(v, me, w) ==>
          v.core.workers[w].messageId !in batch.passes.Values;
  }

  lemma TakesNone(s: State, me: InstanceId, passes: map<WorkerId, MessageId>)
    ensures (forall w :: w in passes ==> NoPassOf(s, me, passes[w]))
            <==> forall w :: w in s.workers && s.workers[w].instance == me ==> s.workers[w].messageId !in passes.Values
  {
    forall w | w in passes ensures passes[w] in passes.Values {
    }
  }

  // ---- The set itself ---------------------------------------------------------------------------

  // What the cold path skips when it is given this.
  function Skipped(skipIds: Option<set<MessageId>>): set<MessageId> {
    if skipIds.None? then {} else skipIds.value
  }

  class OutboxProcessorService {
    ghost const c: Config
    const me: InstanceId
    var hotInFlight: set<MessageId>
    ghost var service: Service

    ghost predicate Valid()
      reads this
    {
      hotInFlight == service.hot && ServiceInv(me, service)
    }

    constructor (instanceId: InstanceId, ghost config: Config)
      ensures Valid() && me == instanceId && c == config && service == STARTED
    {
      me := instanceId;
      c := config;
      hotInFlight := {};
      service := STARTED;
    }

    // Everything else that happens: the steps of any instance's passes.
    ghost method Observe(step: Step)
      requires Valid() && CanMove(c, me, service, Do(step))
      modifies this
      ensures Valid() && service == Moved(c, me, old(service), Do(step))
    {
      ServiceStep(c, me, service, Do(step));
      service := Moved(c, me, service, Do(step));
    }

    // Before the lock is tried: from here on this instance may lock the message by id.
    method BeginHot(messageId: MessageId)
      requires Valid()
      modifies this
      ensures Valid() && service == Moved(c, me, old(service), TakeHint(messageId))
      ensures hotInFlight == old(hotInFlight) + {messageId}
      ensures forall step: Step | step.HotLock? && step.id == messageId && Enabled(c, service.core, step) ::
                CanMove(c, me, service, Do(step))
    {
      ServiceStep(c, me, service, TakeHint(messageId));
      hotInFlight := hotInFlight + {messageId};
      service := Moved(c, me, service, TakeHint(messageId));
    }

    // When the hot pass has ended: every other pass of the instance stays covered.
    method EndHot(messageId: MessageId)
      requires Valid() && CanMove(c, me, service, DropHint(messageId))
      modifies this
      ensures Valid() && service == Moved(c, me, old(service), DropHint(messageId))
      ensures hotInFlight == old(hotInFlight) - {messageId}
    {
      ServiceStep(c, me, service, DropHint(messageId));
      hotInFlight := hotInFlight - {messageId};
      service := Moved(c, me, service, DropHint(messageId));
    }

    // No set at all when there is nothing to skip; either way, what is skipped covers every hot
    // pass of the instance in flight at this moment.
    method SkipIds() returns (skipIds: Option<set<MessageId>>)
      requires Valid()
      modifies this
      ensures Valid() && service == Moved(c, me, old(service), Snapshot) && service.skip == Skipped(skipIds)
      ensures hotInFlight == old(hotInFlight) && (skipIds.None? <==> hotInFlight == {})
      ensures skipIds.Some? ==> skipIds.value == hotInFlight
      ensures forall w :: OwnPass(service, me, w) && w !in service.cold ==>
                service.core.workers[w].messageId in Skipped(skipIds)
    {
      ServiceStep(c, me, service, Snapshot);
      skipIds := if hotInFlight == {} then None else Some(hotInFlight);
      service := Moved(c, me, service, Snapshot);
      forall w | OwnPass(service, me, w) && w !in service.cold
        ensures service.core.workers[w].messageId in Skipped(skipIds)
      {
        assert Covered(service, me, w);
      }
    }
  }
}
