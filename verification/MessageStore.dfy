// The message store as an object whose rows the statements update in place.

module MessageStore {
  import opened OutboxTypes
  import opened MessageTable

  type Locked = (MessageId, Message)

  function IdsOf(messages: seq<Locked>): set<MessageId> {
    set i | 0 <= i < |messages| :: messages[i].0
  }

  // Each returned row is the stored row after the update, and no row is returned twice.
  ghost predicate Returns(messages: seq<Locked>, t: Table) {
    && (forall i :: 0 <= i < |messages| ==> messages[i].0 in t && messages[i].1 == t[messages[i].0])
    && (forall i, j :: 0 <= i < j < |messages| ==> messages[i].0 != messages[j].0)
  }

  lemma IdsOfAppend(messages: seq<Locked>, last: Locked)
    ensures IdsOf(messages + [last]) == IdsOf(messages) + {last.0}
  {
    var longer := messages + [last];
    assert longer[|messages|] == last;
    assert forall i :: 0 <= i < |messages| ==> longer[i] == messages[i];
  }

  // The WHERE clause of the batch, column by column.
  predicate PassesWhere(t: Table, id: MessageId, o: LockOptions, skip: set<MessageId>, now: Instant)
    requires id in t
  {
    var m := t[id];
    && m.status in {Pending, Processing}
    && (m.lockedUntil.None? || m.lockedUntil.value < now)
    && (m.nextRetryAt.None? || m.nextRetryAt.value <= now)
    && (o.tenantFilter.None? || m.key.tenant == o.tenantFilter)
    && id !in skip
    && (o.ordered && (m.key.tenant.Some? || m.key.user.Some? || m.key.entity.Some?) ==>
          forall other :: other in t && other != id && t[other].key == m.key ==>
            t[other].status != Processing || t[other].lockedUntil.None? || t[other].lockedUntil.value <= now)
  }

  lemma CandidateInColumns(t: Table, id: MessageId, o: LockOptions, skip: set<MessageId>, now: Instant)
    requires id in t
    ensures Candidate(t, id, o, skip, now) <==> PassesWhere(t, id, o, skip, now)
  {
    forall other | other in t ensures SamePartition(t[other].key, t[id].key) <==> t[other].key == t[id].key {
      SamePartitionIsEquality(t[other].key, t[id].key);
    }
  }

  lemma MinusOne<T>(s: set<T>, x: T)
    requires x in s
    ensures |s - {x}| == |s| - 1
  {
    assert s == (s - {x}) + {x};
  }

  class OutboxStore {
    var rows: Table

    constructor ()
      ensures rows == map[]
    {
      rows := map[];
    }

    method Oldest(candidates: set<MessageId>) returns (oldest: MessageId)
      requires candidates != {} && candidates <= rows.Keys
      ensures oldest in candidates
      ensures forall q :: q in candidates ==> rows[oldest].createdAt <= rows[q].createdAt
    {
      oldest :| oldest in candidates;
      var rest := candidates - {oldest};
      while rest != {}
        invariant rest <= candidates && oldest in candidates
        invariant forall q :: q in candidates && q !in rest ==> rows[oldest].createdAt <= rows[q].createdAt
        decreases rest
      {
        var q :| q in rest;
        if rows[q].createdAt < rows[oldest].createdAt {
          oldest := q;
        }
        rest := rest - {q};
      }
    }

    // SELECT TOP (n) ... ORDER BY CreatedAt
    method SelectTop(candidates: set<MessageId>, n: nat) returns (picked: set<MessageId>)
      requires candidates <= rows.Keys
      ensures IsOldest(rows, candidates, n, picked)
      ensures picked <= candidates && |picked| <= n && (picked == candidates || |picked| == n)
      ensures forall p, q :: p in picked && q in candidates && q !in picked ==> rows[p].createdAt <= rows[q].createdAt
    {
      picked := {};
      var rest := candidates;
      while |picked| < n && rest != {}
        invariant picked <= candidates && rest == candidates - picked
        invariant |picked| + |rest| == |candidates| && |picked| <= n
        invariant forall p, q :: p in picked && q in rest ==> rows[p].createdAt <= rows[q].createdAt
        decreases rest
      {
        var id := Oldest(rest);
        MinusOne(rest, id);
        picked := picked + {id};
        rest := rest - {id};
      }
    }

    // The reader loop over the OUTPUT rows, which come in no particular order.
    method ReadRows(ids: set<MessageId>) returns (messages: seq<Locked>)
      requires ids <= rows.Keys
      ensures IdsOf(messages) == ids && Returns(messages, rows)
    {
      messages := [];
      var unread := ids;
      while unread != {}
        invariant unread <= ids && IdsOf(messages) == ids - unread
        invariant Returns(messages, rows)
        decreases unread
      {
        var id :| id in unread;
        IdsOfAppend(messages, (id, rows[id]));
        assert forall i :: 0 <= i < |messages| ==> messages[i].0 in IdsOf(messages);
        messages := messages + [(id, rows[id])];
        unread := unread - {id};
      }
    }

    // A row is taken only if every clause of the WHERE lets it through; one that all of them let
    // through is left only by a full batch of rows at least as old.
    method LockNextBatch(o: LockOptions, owner: InstanceId, skip: set<MessageId>, now: Instant)
      returns (messages: seq<Locked>)
      modifies this
      ensures IsBatch(old(rows), o, skip, now, IdsOf(messages))
      ensures rows == LockAll(old(rows), IdsOf(messages), owner, now + o.visibility)
      ensures Returns(messages, rows)
      ensures RowsOk(old(rows)) ==> RowsOk(rows)
      ensures |IdsOf(messages)| <= o.batchSize
      ensures forall id :: id in IdsOf(messages) ==>
                id in old(rows) && PassesWhere(old(rows), id, o, skip, now)
      ensures forall id :: id in old(rows) && PassesWhere(old(rows), id, o, skip, now) && id !in IdsOf(messages) ==>
                |IdsOf(messages)| == o.batchSize
                && forall p :: p in IdsOf(messages) ==> old(rows)[p].createdAt <= old(rows)[id].createdAt
      ensures rows.Keys == old(rows).Keys
      ensures forall id :: id in rows ==>
                rows[id] == if id in IdsOf(messages)
                            then old(rows)[id].(status := Processing, lockedBy := Some(owner),
                                                lockedUntil := Some(now + o.visibility))
                            else old(rows)[id]
    {
      forall id | id in rows ensures Candidate(rows, id, o, skip, now) <==> PassesWhere(rows, id, o, skip, now) {
        CandidateInColumns(rows, id, o, skip, now);
      }
      var picked := SelectTop(Candidates(rows, o, skip, now), o.batchSize);
      rows := LockAll(rows, picked, owner, now + o.visibility);
      messages := ReadRows(picked);
    }

    method TryLockById(id: MessageId, visibility: int, owner: InstanceId, now: Instant)
      returns (message: Option<Message>)
      modifies this
      ensures message.Some? <==>
                && id in old(rows) && old(rows)[id].status == Pending
                && (old(rows)[id].lockedUntil.None? || old(rows)[id].lockedUntil.value < now)
                && (old(rows)[id].nextRetryAt.None? || old(rows)[id].nextRetryAt.value <= now)
      ensures message.Some? ==>
                message.value == old(rows)[id].(status := Processing, lockedBy := Some(owner),
                                                lockedUntil := Some(now + visibility))
      ensures rows == if message.Some? then old(rows)[id := message.value] else old(rows)
      ensures rows == if message.Some? then LockAll(old(rows), {id}, owner, now + visibility) else old(rows)
      ensures RowsOk(old(rows)) ==> RowsOk(rows)
    {
      if id in rows && HotEligible(rows[id], now) {
        rows := rows[id := Lock(rows[id], owner, now + visibility)];
        message := Some(rows[id]);
      } else {
        message := None;
      }
    }

    method MarkAsProcessed(id: MessageId, owner: InstanceId, now: Instant) returns (affected: bool)
      modifies this
      ensures affected <==> id in old(rows) && old(rows)[id].lockedBy == Some(owner)
      ensures rows == if affected
                      then old(rows)[id := old(rows)[id].(status := Delivered, processedAt := Some(now),
                                                          lockedBy := None, lockedUntil := None)]
                      else old(rows)
      ensures rows == MarkProcessed(old(rows), id, owner, now)
      ensures RowsOk(old(rows)) ==> RowsOk(rows)
    {
      affected := id in rows && rows[id].lockedBy == Some(owner);
      if affected {
        rows := rows[id := rows[id].(status := Delivered, processedAt := Some(now),
                                     lockedUntil := None, lockedBy := None)];
      }
    }

    method IncrementRetry(id: MessageId, owner: InstanceId, nextRetryAt: Instant) returns (affected: bool)
      modifies this
      ensures affected <==> id in old(rows) && old(rows)[id].lockedBy == Some(owner)
      ensures rows == if affected
                      then old(rows)[id := old(rows)[id].(status := Pending, retryCount := old(rows)[id].retryCount + 1,
                                                          nextRetryAt := Some(nextRetryAt), lockedBy := None,
                                                          lockedUntil := None)]
                      else old(rows)
      ensures rows == MessageTable.IncrementRetry(old(rows), id, owner, nextRetryAt)
      ensures RowsOk(old(rows)) ==> RowsOk(rows)
    {
      affected := id in rows && rows[id].lockedBy == Some(owner);
      if affected {
        var m := rows[id];
        rows := rows[id := m.(status := Pending, retryCount := m.retryCount + 1, nextRetryAt := Some(nextRetryAt),
                              lockedUntil := None, lockedBy := None)];
      }
    }

    method MarkAsDeadLettered(id: MessageId, owner: InstanceId) returns (affected: bool)
      modifies this
      ensures affected <==> id in old(rows) && old(rows)[id].lockedBy == Some(owner)
      ensures rows == if affected
                      then old(rows)[id := old(rows)[id].(status := DeadLettered, lockedBy := None,
                                                          lockedUntil := None)]
                      else old(rows)
      ensures rows == MarkDeadLettered(old(rows), id, owner)
      ensures RowsOk(old(rows)) ==> RowsOk(rows)
    {
      affected := id in rows && rows[id].lockedBy == Some(owner);
      if affected {
        rows := rows[id := rows[id].(status := DeadLettered, lockedUntil := None, lockedBy := None)];
      }
    }

    method ReleaseExpiredLocks(now: Instant)
      modifies this
      ensures rows == ReleaseExpired(old(rows), now)
      ensures RowsOk(old(rows)) ==> RowsOk(rows)
      ensures rows.Keys == old(rows).Keys
      ensures forall id :: id in rows ==>
                rows[id] == var m := old(rows)[id];
                            if m.status == Processing && m.lockedUntil.Some? && m.lockedUntil.value < now
                            then m.(status := Pending, lockedBy := None, lockedUntil := None) else m
    {
      rows := map id | id in rows ::
        if Expired(rows[id], now) then rows[id].(status := Pending, lockedUntil := None, lockedBy := None)
        else rows[id];
    }

    method PurgeProcessedMessages(olderThan: Instant) returns (deleted: nat)
      modifies this
      ensures rows == Purge(old(rows), olderThan)
      ensures deleted == |old(rows)| - |rows|
      ensures forall id :: id in rows ==> id in old(rows) && rows[id] == old(rows)[id]
      ensures forall id :: id in old(rows) ==>
                (id !in rows <==>
                 old(rows)[id].status in {Delivered, DeadLettered} && old(rows)[id].createdAt < olderThan)
    {
      var doomed := set id | id in rows && Purgeable(rows[id], olderThan);
      var before := rows;
      rows := map id | id in rows && !Purgeable(rows[id], olderThan) :: rows[id];
      deleted := |doomed|;
      assert rows.Keys == before.Keys - doomed;
      SizeOfDifference(before.Keys, doomed);
    }
  }

  lemma SizeOfDifference<T>(a: set<T>, b: set<T>)
    requires b <= a
    ensures |a - b| == |a| - |b|
  {
    assert a == (a - b) + b;
  }
}
