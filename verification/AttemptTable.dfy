// Set-level meaning of the statements on DeliveryAttempts, and the shape its rows keep.

module AttemptTable {
  import opened OutboxTypes

  // ---- Statements -----------------------------------------------------------------------

  function RowsOf(log: AttemptLog, m: MessageId, s: SubscriptionId): set<DeliveryId> {
    set id | id in log && id.messageId == m && id.subscriptionId == s
  }

  // COUNT(*) of one (message, subscription) group.
  function Count(log: AttemptLog, m: MessageId, s: SubscriptionId): nat {
    |RowsOf(log, m, s)|
  }

  // MAX(CASE WHEN Status = Success ...) of the group.
  predicate HasSuccess(log: AttemptLog, m: MessageId, s: SubscriptionId) {
    exists id :: id in log && id.messageId == m && id.subscriptionId == s && log[id] == Success
  }

  // GetDeliveryStatesAsync: groups without rows are absent from the result.
  function States(log: AttemptLog, m: MessageId, subs: seq<SubscriptionId>): map<SubscriptionId, DeliveryState> {
    map s | s in subs && RowsOf(log, m, s) != {} :: DeliveryState(Count(log, m, s), HasSuccess(log, m, s))
  }

  // A multi-row INSERT succeeds as a whole when no primary key is taken and every
  // message referenced by a row exists.
  predicate Insertable(log: AttemptLog, rows: AttemptLog, messages: set<MessageId>) {
    forall id :: id in rows ==> id !in log && id.messageId in messages
  }

  // Deleting messages deletes their attempts (ON DELETE CASCADE).
  function Cascade(log: AttemptLog, messages: set<MessageId>): AttemptLog {
    map id | id in log && id.messageId in messages :: log[id]
  }

  // ---- Shape ----------------------------------------------------------------------------

  function Before(id: DeliveryId): DeliveryId {
    if id.number == 0 then id else id.(number := id.number - 1)
  }

  function After(id: DeliveryId): DeliveryId {
    id.(number := id.number + 1)
  }

  // Every row is numbered from 1 and follows the row numbered one less.
  ghost predicate Gapless(log: AttemptLog) {
    && (forall id :: id in log ==> id.number >= 1)
    && (forall id {:trigger Before(id)} :: id in log && id.number > 1 ==> Before(id) in log)
  }

  // No row follows a Success.
  ghost predicate SuccessIsLast(log: AttemptLog) {
    forall id {:trigger After(id)} :: id in log && log[id] == Success ==> After(id) !in log
  }

  // A row is only ever written while the subscription has retries left.
  predicate Bounded(c: Config, log: AttemptLog) {
    forall id :: id in log ==> id.number - 1 <= c.maxRetries(id.subscriptionId)
  }

  ghost predicate LogOk(c: Config, log: AttemptLog) {
    Gapless(log) && SuccessIsLast(log) && Bounded(c, log)
  }

  // The first k rows of a pair.
  function Prefix(m: MessageId, s: SubscriptionId, k: nat): set<DeliveryId> {
    set n: nat | 1 <= n <= k :: DeliveryId(m, s, n)
  }

  lemma {:induction false} PrefixSize(m: MessageId, s: SubscriptionId, k: nat)
    ensures |Prefix(m, s, k)| == k
  {
    if k == 0 {
      assert Prefix(m, s, 0) == {};
    } else {
      PrefixSize(m, s, k - 1);
      assert Prefix(m, s, k) == Prefix(m, s, k - 1) + {DeliveryId(m, s, k)};
    }
  }

  lemma {:induction false} DownwardClosed(log: AttemptLog, m: MessageId, s: SubscriptionId, hi: nat, lo: nat)
    requires Gapless(log)
    requires DeliveryId(m, s, hi) in log
    requires 1 <= lo <= hi
    ensures DeliveryId(m, s, lo) in log
    decreases hi
  {
    if lo < hi {
      assert Before(DeliveryId(m, s, hi)) == DeliveryId(m, s, hi - 1);
      DownwardClosed(log, m, s, hi - 1, lo);
    }
  }

  // The stored attempt numbers of a pair are exactly 1..COUNT(*).
  lemma ExactNumbering(log: AttemptLog, m: MessageId, s: SubscriptionId)
    requires Gapless(log)
    ensures forall n: nat :: DeliveryId(m, s, n) in log <==> 1 <= n <= Count(log, m, s)
  {
    forall n: nat ensures DeliveryId(m, s, n) in log <==> 1 <= n <= Count(log, m, s) {
      if DeliveryId(m, s, n) in log {
        NumberWithinCount(log, m, s, n);
      } else if 1 <= n <= Count(log, m, s) {
        CountReached(log, m, s, n);
      }
    }
  }

  lemma NumberWithinCount(log: AttemptLog, m: MessageId, s: SubscriptionId, n: nat)
    requires Gapless(log)
    requires DeliveryId(m, s, n) in log
    ensures 1 <= n <= Count(log, m, s)
  {
    forall id | id in Prefix(m, s, n) ensures id in RowsOf(log, m, s) {
      DownwardClosed(log, m, s, n, id.number);
    }
    PrefixSize(m, s, n);
    SubsetSize(Prefix(m, s, n), RowsOf(log, m, s));
  }

  lemma CountReached(log: AttemptLog, m: MessageId, s: SubscriptionId, n: nat)
    requires Gapless(log)
    requires 1 <= n <= Count(log, m, s)
    ensures DeliveryId(m, s, n) in log
  {
    if DeliveryId(m, s, n) !in log {
      forall id | id in RowsOf(log, m, s) ensures id in Prefix(m, s, n - 1) {
        if id.number >= n {
          DownwardClosed(log, m, s, id.number, n);
        }
        assert id == DeliveryId(m, s, id.number);
      }
      PrefixSize(m, s, n - 1);
      SubsetSize(RowsOf(log, m, s), Prefix(m, s, n - 1));
    }
  }

  lemma {:induction false} SubsetSize<T>(a: set<T>, b: set<T>)
    requires a <= b
    ensures |a| <= |b|
  {
    if a != {} {
      var x :| x in a;
      SubsetSize(a - {x}, b - {x});
    }
  }

  // At most one Success per pair, and it is the row with the highest number.
  lemma SuccessIsHighest(log: AttemptLog, m: MessageId, s: SubscriptionId, n: nat)
    requires Gapless(log) && SuccessIsLast(log)
    requires DeliveryId(m, s, n) in log && log[DeliveryId(m, s, n)] == Success
    ensures n == Count(log, m, s)
  {
    ExactNumbering(log, m, s);
    assert After(DeliveryId(m, s, n)) == DeliveryId(m, s, n + 1);
  }

  // The aggregate GetDeliveryStatesAsync computes agrees with the highest-numbered row.
  lemma HasSuccessIsTopRow(log: AttemptLog, m: MessageId, s: SubscriptionId)
    requires Gapless(log) && SuccessIsLast(log)
    ensures Count(log, m, s) > 0 ==> DeliveryId(m, s, Count(log, m, s)) in log
    ensures HasSuccess(log, m, s) <==>
            Count(log, m, s) > 0 && log[DeliveryId(m, s, Count(log, m, s))] == Success
  {
    ExactNumbering(log, m, s);
    if HasSuccess(log, m, s) {
      var id :| id in log && id.messageId == m && id.subscriptionId == s && log[id] == Success;
      assert id == DeliveryId(m, s, id.number);
      SuccessIsHighest(log, m, s, id.number);
    }
  }

  // MaxRetries + 1 rows at most (none at all when MaxRetries is negative).
  lemma LogIsBounded(c: Config, log: AttemptLog, m: MessageId, s: SubscriptionId)
    requires LogOk(c, log)
    ensures Count(log, m, s) == 0 || Count(log, m, s) <= c.maxRetries(s) + 1
  {
    ExactNumbering(log, m, s);
    if Count(log, m, s) > 0 {
      assert DeliveryId(m, s, Count(log, m, s)) in log;
    }
  }
}
