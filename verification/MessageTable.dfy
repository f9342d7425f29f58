// Set-level meaning of every statement the two message stores send to OutboxMessages.

module MessageTable {
  import opened OutboxTypes

  // ---- SQL three-valued logic -----------------------------------------------------------

  // NULL = anything is unknown; a WHERE clause keeps a row only when it is Some(true).
  function SqlEq<T(==)>(a: Option<T>, b: Option<T>): Option<bool> {
    if a.None? || b.None? then None else Some(a.value == b.value)
  }

  function SqlAnd(a: Option<bool>, b: Option<bool>): Option<bool> {
    if a == Some(false) || b == Some(false) then Some(false)
    else if a.None? || b.None? then None
    else Some(true)
  }

  function SqlOr(a: Option<bool>, b: Option<bool>): Option<bool> {
    if a == Some(true) || b == Some(true) then Some(true)
    else if a.None? || b.None? then None
    else Some(false)
  }

  // (a = b) OR (a IS NULL AND b IS NULL)
  function NullSafeEq<T(==)>(a: Option<T>, b: Option<T>): Option<bool> {
    SqlOr(SqlEq(a, b), SqlAnd(Some(a.None?), Some(b.None?)))
  }

  predicate SamePartition(a: PartitionKey, b: PartitionKey) {
    SqlAnd(SqlAnd(NullSafeEq(a.tenant, b.tenant), NullSafeEq(a.user, b.user)),
           NullSafeEq(a.entity, b.entity)) == Some(true)
  }

  predicate Keyed(k: PartitionKey) {
    !(k.tenant.None? && k.user.None? && k.entity.None?)
  }

  // The three-valued expression selects exactly the rows with equal keys, so it is an
  // equivalence: no NULL makes it unknown and drops a row.
  lemma SamePartitionIsEquality(a: PartitionKey, b: PartitionKey)
    ensures SamePartition(a, b) <==> a == b
  {
    assert a == PartitionKey(a.tenant, a.user, a.entity);
    assert b == PartitionKey(b.tenant, b.user, b.entity);
    NullSafeEqIsEquality(a.tenant, b.tenant);
    NullSafeEqIsEquality(a.user, b.user);
    NullSafeEqIsEquality(a.entity, b.entity);
  }

  lemma NullSafeEqIsEquality<T>(a: Option<T>, b: Option<T>)
    ensures NullSafeEq(a, b) == Some(true) <==> a == b
  {
  }

  // ---- Locking --------------------------------------------------------------------------

  datatype LockOptions = LockOptions(
    batchSize: nat,
    visibility: int,
    ordered: bool,
    tenantFilter: Option<string>)

  predicate LeaseFree(m: Message, now: Instant) {
    m.lockedUntil.None? || m.lockedUntil.value < now
  }

  predicate RetryDue(m: Message, now: Instant) {
    m.nextRetryAt.None? || m.nextRetryAt.value <= now
  }

  predicate HotEligible(m: Message, now: Instant) {
    m.status == Pending && LeaseFree(m, now) && RetryDue(m, now)
  }

  predicate ColdEligible(m: Message, now: Instant) {
    (m.status == Pending || m.status == Processing) && LeaseFree(m, now) && RetryDue(m, now)
  }

  // A lock the ordering clause respects. At LockedUntil == now a lock is neither live nor free.
  predicate LiveLock(m: Message, now: Instant) {
    m.status == Processing && m.lockedUntil.Some? && m.lockedUntil.value > now
  }

  predicate PartitionBusy(t: Table, id: MessageId, now: Instant)
    requires id in t
  {
    exists other :: other in t && other != id && LiveLock(t[other], now) && SamePartition(t[other].key, t[id].key)
  }

  predicate TenantAdmits(filter: Option<string>, m: Message) {
    filter.None? || SqlEq(m.key.tenant, filter) == Some(true)
  }

  predicate Candidate(t: Table, id: MessageId, o: LockOptions, skip: set<MessageId>, now: Instant) {
    && id in t
    && ColdEligible(t[id], now)
    && TenantAdmits(o.tenantFilter, t[id])
    && id !in skip
    && (o.ordered ==> !Keyed(t[id].key) || !PartitionBusy(t, id, now))
  }

  function Candidates(t: Table, o: LockOptions, skip: set<MessageId>, now: Instant): set<MessageId> {
    set id | id in t && Candidate(t, id, o, skip, now)
  }

  function Min(a: nat, b: nat): nat {
    if a <= b then a else b
  }

  // SELECT TOP (n) ... ORDER BY CreatedAt, as a set: ties may fall either way.
  predicate IsOldest(t: Table, among: set<MessageId>, n: nat, picked: set<MessageId>) {
    && picked <= among <= t.Keys
    && |picked| == Min(n, |among|)
    && forall p, q :: p in picked && q in among && q !in picked ==> t[p].createdAt <= t[q].createdAt
  }

  predicate IsBatch(t: Table, o: LockOptions, skip: set<MessageId>, now: Instant, picked: set<MessageId>) {
    IsOldest(t, Candidates(t, o, skip, now), o.batchSize, picked)
  }

  // Some batch of every size can be taken.
  lemma {:induction false} OldestExists(t: Table, among: set<MessageId>) returns (id: MessageId)
    requires among != {} && among <= t.Keys
    ensures id in among && forall q :: q in among ==> t[id].createdAt <= t[q].createdAt
    decreases among
  {
    id :| id in among;
    if among == {id} {
    } else {
      var other := OldestExists(t, among - {id});
      assert forall q :: q in among ==> q == id || q in among - {id};
      id := if t[other].createdAt < t[id].createdAt then other else id;
    }
  }

  lemma {:induction false} BatchExists(t: Table, among: set<MessageId>, n: nat) returns (picked: set<MessageId>)
    requires among <= t.Keys
    ensures IsOldest(t, among, n, picked)
    decreases n
  {
    if n == 0 || among == {} {
      picked := {};
    } else {
      var id := OldestExists(t, among);
      var rest := BatchExists(t, among - {id}, n - 1);
      assert among == {id} + (among - {id});
      picked := {id} + rest;
    }
  }

  function Lock(m: Message, owner: InstanceId, until: Instant): Message {
    m.(status := Processing, lockedBy := Some(owner), lockedUntil := Some(until))
  }

  function LockAll(t: Table, ids: set<MessageId>, owner: InstanceId, until: Instant): (locked: Table)
    ensures locked.Keys == t.Keys
  {
    map id | id in t :: if id in ids then Lock(t[id], owner, until) else t[id]
  }

  // ---- Owner-guarded write-backs, release, purge ------------------------------------------

  predicate Owns(t: Table, id: MessageId, owner: InstanceId) {
    id in t && t[id].lockedBy == Some(owner)
  }

  function Unlock(m: Message, status: MessageStatus): Message {
    m.(status := status, lockedBy := None, lockedUntil := None)
  }

  function Finished(m: Message, now: Instant): Message {
    Unlock(m, Delivered).(processedAt := Some(now))
  }

  function Rescheduled(m: Message, nextRetryAt: Instant): Message {
    Unlock(m, Pending).(retryCount := m.retryCount + 1, nextRetryAt := Some(nextRetryAt))
  }

  function MarkProcessed(t: Table, id: MessageId, owner: InstanceId, now: Instant): Table {
    if Owns(t, id, owner) then t[id := Finished(t[id], now)] else t
  }

  function IncrementRetry(t: Table, id: MessageId, owner: InstanceId, nextRetryAt: Instant): Table {
    if Owns(t, id, owner) then t[id := Rescheduled(t[id], nextRetryAt)] else t
  }

  function MarkDeadLettered(t: Table, id: MessageId, owner: InstanceId): Table {
    if Owns(t, id, owner) then t[id := Unlock(t[id], DeadLettered)] else t
  }

  predicate Expired(m: Message, now: Instant) {
    m.status == Processing && m.lockedUntil.Some? && m.lockedUntil.value < now
  }

  function ReleaseExpired(t: Table, now: Instant): (released: Table)
    ensures released.Keys == t.Keys
  {
    map id | id in t :: if Expired(t[id], now) then Unlock(t[id], Pending) else t[id]
  }

  predicate Purgeable(m: Message, olderThan: Instant) {
    m.Terminal() && m.createdAt < olderThan
  }

  function Purge(t: Table, olderThan: Instant): Table {
    map id | id in t && !Purgeable(t[id], olderThan) :: t[id]
  }

  function NewMessage(eventType: string, key: PartitionKey, now: Instant): Message {
    Message(eventType, key, now, Pending, 0, None, None, None, None)
  }

  // ---- The shape every row keeps --------------------------------------------------------

  // A row is Processing exactly when it carries a lock, and only the four statuses the
  // pipeline uses occur.
  predicate RowOk(m: Message) {
    && (m.status == Processing <==> m.lockedBy.Some?)
    && (m.status == Processing <==> m.lockedUntil.Some?)
    && m.status != Published && m.status != Failed
  }

  predicate RowsOk(t: Table) {
    forall id :: id in t ==> RowOk(t[id])
  }
}
