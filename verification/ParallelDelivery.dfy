// Parallel.ForEachAsync over the subscriptions of one message: tasks interleave at every
// counter increment and list append, yet the totals are those of the sequential fold.

module ParallelDelivery {
  import opened OutboxTypes
  import opened Delivery

  type Attempt = (DeliveryId, AttemptStatus)

  // Everything a pass fixes before its tasks start; `post` is what each receiver will answer.
  datatype Pass = Pass(
    c: Config,
    messageId: MessageId,
    subs: seq<SubscriptionId>,
    states: StateMap,
    post: SubscriptionId -> AttemptStatus)
  {
    function Results(): ResultMap {
      map s | s in subs && NeedsPost(c, states, s) :: post(s)
    }

    function Row(s: SubscriptionId): Attempt {
      (NextId(messageId, states, s), post(s))
    }

    function Slot(s: SubscriptionId): Slot {
      SlotOf(c, states, Results(), s)
    }

    // The attempts of the first n subscriptions, in list order.
    function Rows(n: nat): seq<Attempt>
      requires n <= |subs|
    {
      if n == 0 then [] else Rows(n - 1) + (if NeedsPost(c, states, subs[n - 1]) then [Row(subs[n - 1])] else [])
    }
  }

  // One task per subscription. Between Answered and Recorded it appends under the lock, between
  // Recorded and Done it increments its counter.
  datatype Task = Waiting | Answered | Recorded | Done

  datatype Board = Board(
    tasks: seq<Task>,
    succeeded: nat,
    failed: nat,
    exhausted: nat,
    attempts: seq<Attempt>)

  function Start(p: Pass): Board {
    Board(seq(|p.subs|, _ => Waiting), 0, 0, 0, [])
  }

  predicate Fits(p: Pass, b: Board) {
    |b.tasks| == |p.subs|
  }

  function Bump(b: Board, slot: Slot): Board {
    match slot
    case Succeeded => b.(succeeded := b.succeeded + 1)
    case FailedNow => b.(failed := b.failed + 1)
    case Exhausted => b.(exhausted := b.exhausted + 1)
  }

  // The next atomic action of task i.
  function Advance(p: Pass, b: Board, i: nat): Board
    requires Fits(p, b) && i < |b.tasks|
  {
    var s := p.subs[i];
    match b.tasks[i]
    case Waiting =>
      if AlreadyDelivered(p.states, s) then Bump(b, Succeeded).(tasks := b.tasks[i := Done])
      else if OutOfRetries(p.c, p.states, s) then Bump(b, Exhausted).(tasks := b.tasks[i := Done])
      else b.(tasks := b.tasks[i := Answered])
    case Answered => b.(attempts := b.attempts + [p.Row(s)], tasks := b.tasks[i := Recorded])
    case Recorded => Bump(b, if p.post(s) == Success then Succeeded else FailedNow).(tasks := b.tasks[i := Done])
    case Done => b
  }

  // Any order of any tasks' actions; indices out of range are idle.
  function Play(p: Pass, b: Board, schedule: seq<nat>): Board
    requires Fits(p, b)
    decreases |schedule|
  {
    if schedule == [] then b
    else Play(p, if schedule[0] < |b.tasks| then Advance(p, b, schedule[0]) else b, schedule[1..])
  }

  predicate AllDone(b: Board) {
    forall i :: 0 <= i < |b.tasks| ==> b.tasks[i] == Done
  }

  // ---- Counting finished tasks ------------------------------------------------------------

  function Finished(p: Pass, tasks: seq<Task>, n: nat, slot: Slot): nat
    requires |tasks| == |p.subs| && n <= |tasks|
  {
    if n == 0 then 0
    else Finished(p, tasks, n - 1, slot) + (if tasks[n - 1] == Done && p.Slot(p.subs[n - 1]) == slot then 1 else 0)
  }

  predicate HasRecorded(p: Pass, tasks: seq<Task>, i: nat)
    requires |tasks| == |p.subs| && i < |tasks|
  {
    tasks[i] == Recorded || (tasks[i] == Done && NeedsPost(p.c, p.states, p.subs[i]))
  }

  // How often an attempt was recorded by the first n tasks.
  function Copies(p: Pass, tasks: seq<Task>, n: nat, a: Attempt): nat
    requires |tasks| == |p.subs| && n <= |tasks|
  {
    if n == 0 then 0
    else Copies(p, tasks, n - 1, a) + (if HasRecorded(p, tasks, n - 1) && p.Row(p.subs[n - 1]) == a then 1 else 0)
  }

  lemma {:induction false} FinishedUpdate(p: Pass, tasks: seq<Task>, n: nat, slot: Slot, i: nat, t: Task)
    requires |tasks| == |p.subs| && n <= |tasks| && i < |tasks| && tasks[i] != Done
    ensures Finished(p, tasks[i := t], n, slot)
         == Finished(p, tasks, n, slot) + (if i < n && t == Done && p.Slot(p.subs[i]) == slot then 1 else 0)
  {
    if n > 0 {
      FinishedUpdate(p, tasks, n - 1, slot, i, t);
    }
  }

  lemma {:induction false} CopiesUpdate(p: Pass, tasks: seq<Task>, n: nat, i: nat, t: Task, a: Attempt)
    requires |tasks| == |p.subs| && n <= |tasks| && i < |tasks|
    requires HasRecorded(p, tasks, i) ==> HasRecorded(p, tasks[i := t], i)
    ensures Copies(p, tasks[i := t], n, a)
         == Copies(p, tasks, n, a)
            + (if i < n && HasRecorded(p, tasks[i := t], i) && !HasRecorded(p, tasks, i)
                && p.Row(p.subs[i]) == a then 1 else 0)
  {
    if n > 0 {
      CopiesUpdate(p, tasks, n - 1, i, t, a);
    }
  }

  // ---- Invariant of the interleaving ------------------------------------------------------

  ghost predicate Consistent(p: Pass, b: Board) {
    && Fits(p, b)
    && b.succeeded == Finished(p, b.tasks, |b.tasks|, Succeeded)
    && b.failed == Finished(p, b.tasks, |b.tasks|, FailedNow)
    && b.exhausted == Finished(p, b.tasks, |b.tasks|, Exhausted)
    && (forall a: Attempt :: multiset(b.attempts)[a] == Copies(p, b.tasks, |b.tasks|, a))
    && forall i :: 0 <= i < |b.tasks| && (b.tasks[i] == Answered || b.tasks[i] == Recorded)
         ==> NeedsPost(p.c, p.states, p.subs[i])
  }

  lemma {:induction false} StartIsConsistent(p: Pass, n: nat)
    requires n <= |p.subs|
    ensures forall slot :: Finished(p, Start(p).tasks, n, slot) == 0
    ensures forall a: Attempt :: Copies(p, Start(p).tasks, n, a) == 0
  {
    if n > 0 {
      StartIsConsistent(p, n - 1);
    }
  }

  lemma SlotFacts(p: Pass, s: SubscriptionId)
    requires s in p.subs
    ensures AlreadyDelivered(p.states, s) ==> p.Slot(s) == Succeeded
    ensures OutOfRetries(p.c, p.states, s) ==> p.Slot(s) == Exhausted
    ensures NeedsPost(p.c, p.states, s) ==> p.Slot(s) == if p.post(s) == Success then Succeeded else FailedNow
  {
  }

  // A task that finishes moves exactly its own counter.
  lemma FinishingKeepsConsistent(p: Pass, b: Board, i: nat, slot: Slot)
    requires Consistent(p, b) && i < |b.tasks|
    requires b.tasks[i] == if NeedsPost(p.c, p.states, p.subs[i]) then Recorded else Waiting
    requires p.Slot(p.subs[i]) == slot
    ensures Consistent(p, Bump(b, slot).(tasks := b.tasks[i := Done]))
  {
    var n := |b.tasks|;
    FinishedUpdate(p, b.tasks, n, Succeeded, i, Done);
    FinishedUpdate(p, b.tasks, n, FailedNow, i, Done);
    FinishedUpdate(p, b.tasks, n, Exhausted, i, Done);
    assert HasRecorded(p, b.tasks, i) == HasRecorded(p, b.tasks[i := Done], i);
    forall a: Attempt ensures Copies(p, b.tasks[i := Done], n, a) == Copies(p, b.tasks, n, a) {
      CopiesUpdate(p, b.tasks, n, i, Done, a);
    }
  }

  // A task that only moves on touches no counter, and the list only when it records its row.
  lemma MovingKeepsConsistent(p: Pass, b: Board, i: nat, t: Task)
    requires Consistent(p, b) && i < |b.tasks| && NeedsPost(p.c, p.states, p.subs[i])
    requires (b.tasks[i] == Waiting && t == Answered) || (b.tasks[i] == Answered && t == Recorded)
    ensures Consistent(p, b.(tasks := b.tasks[i := t],
                             attempts := if t == Recorded then b.attempts + [p.Row(p.subs[i])] else b.attempts))
  {
    var n := |b.tasks|;
    FinishedUpdate(p, b.tasks, n, Succeeded, i, t);
    FinishedUpdate(p, b.tasks, n, FailedNow, i, t);
    FinishedUpdate(p, b.tasks, n, Exhausted, i, t);
    var row := p.Row(p.subs[i]);
    forall a: Attempt
      ensures Copies(p, b.tasks[i := t], n, a)
           == Copies(p, b.tasks, n, a) + (if t == Recorded && a == row then 1 else 0)
    {
      CopiesUpdate(p, b.tasks, n, i, t, a);
    }
  }

  lemma AdvanceKeepsConsistent(p: Pass, b: Board, i: nat)
    requires Consistent(p, b) && i < |b.tasks|
    ensures Consistent(p, Advance(p, b, i))
  {
    var s := p.subs[i];
    SlotFacts(p, s);
    match b.tasks[i]
    case Waiting =>
      if NeedsPost(p.c, p.states, s) {
        MovingKeepsConsistent(p, b, i, Answered);
      } else {
        FinishingKeepsConsistent(p, b, i, p.Slot(s));
      }
    case Answered => MovingKeepsConsistent(p, b, i, Recorded);
    case Recorded => FinishingKeepsConsistent(p, b, i, p.Slot(s));
    case Done =>
  }

  lemma {:induction false} PlayKeepsConsistent(p: Pass, b: Board, schedule: seq<nat>)
    requires Consistent(p, b)
    ensures Consistent(p, Play(p, b, schedule))
    decreases |schedule|
  {
    if schedule != [] {
      if schedule[0] < |b.tasks| {
        AdvanceKeepsConsistent(p, b, schedule[0]);
        PlayKeepsConsistent(p, Advance(p, b, schedule[0]), schedule[1..]);
      } else {
        PlayKeepsConsistent(p, b, schedule[1..]);
      }
    }
  }

  // ---- When every task is done ------------------------------------------------------------

  lemma {:induction false} FinishedIsTally(p: Pass, tasks: seq<Task>, n: nat, slot: Slot)
    requires |tasks| == |p.subs| && n <= |tasks|
    requires forall i :: 0 <= i < |tasks| ==> tasks[i] == Done
    ensures Finished(p, tasks, n, slot) == Tally(p.c, p.subs[..n], p.states, p.Results(), slot)
  {
    if n > 0 {
      FinishedIsTally(p, tasks, n - 1, slot);
      TallySplit(p.c, p.subs[..n - 1], [p.subs[n - 1]], p.states, p.Results(), slot);
      assert p.subs[..n] == p.subs[..n - 1] + [p.subs[n - 1]];
      assert Tally(p.c, [p.subs[n - 1]], p.states, p.Results(), slot)
             == (if p.Slot(p.subs[n - 1]) == slot then 1 else 0);
    }
  }

  lemma {:induction false} TallySplit(c: Config, xs: seq<SubscriptionId>, ys: seq<SubscriptionId>, states: StateMap,
                                      results: ResultMap, slot: Slot)
    ensures Tally(c, xs + ys, states, results, slot)
         == Tally(c, xs, states, results, slot) + Tally(c, ys, states, results, slot)
  {
    if xs == [] {
      assert xs + ys == ys;
    } else {
      TallySplit(c, xs[1..], ys, states, results, slot);
      assert (xs + ys)[1..] == xs[1..] + ys;
    }
  }

  // How often an attempt is among the rows of the first n subscriptions.
  function RowCopies(p: Pass, n: nat, a: Attempt): nat
    requires n <= |p.subs|
  {
    if n == 0 then 0
    else RowCopies(p, n - 1, a)
         + (if NeedsPost(p.c, p.states, p.subs[n - 1]) && p.Row(p.subs[n - 1]) == a then 1 else 0)
  }

  lemma {:induction false} CopiesAreRowCopies(p: Pass, tasks: seq<Task>, n: nat, a: Attempt)
    requires |tasks| == |p.subs| && n <= |tasks|
    requires forall i :: 0 <= i < |tasks| ==> tasks[i] == Done
    ensures Copies(p, tasks, n, a) == RowCopies(p, n, a)
  {
    if n > 0 {
      CopiesAreRowCopies(p, tasks, n - 1, a);
    }
  }

  lemma {:induction false} RowCopiesAreRows(p: Pass, n: nat, a: Attempt)
    requires n <= |p.subs|
    ensures RowCopies(p, n, a) == multiset(p.Rows(n))[a]
  {
    if n > 0 {
      RowCopiesAreRows(p, n - 1, a);
      NextRow(p, n);
      OneRowMore(p.Rows(n - 1), p.Row(p.subs[n - 1]), a);
    }
  }

  lemma OneRowMore(rows: seq<Attempt>, row: Attempt, a: Attempt)
    ensures multiset(rows + [row])[a] == multiset(rows)[a] + (if row == a then 1 else 0)
  {
  }

  lemma NextRow(p: Pass, n: nat)
    requires 0 < n <= |p.subs|
    ensures p.Rows(n) == if NeedsPost(p.c, p.states, p.subs[n - 1]) then p.Rows(n - 1) + [p.Row(p.subs[n - 1])]
                         else p.Rows(n - 1)
  {
    assert p.Rows(n - 1) + [] == p.Rows(n - 1);
  }

  // However the tasks interleave, once all are done the counters are the fold's, the attempts
  // are the fold's up to order, and nothing is counted twice or lost.
  lemma InterleavingIndependence(p: Pass, schedule: seq<nat>)
    requires AllDone(Play(p, Start(p), schedule))
    ensures var b := Play(p, Start(p), schedule);
            && b.succeeded == Tally(p.c, p.subs, p.states, p.Results(), Succeeded)
            && b.failed == Tally(p.c, p.subs, p.states, p.Results(), FailedNow)
            && b.exhausted == Tally(p.c, p.subs, p.states, p.Results(), Exhausted)
            && b.succeeded + b.failed + b.exhausted == |p.subs|
            && multiset(b.attempts) == multiset(p.Rows(|p.subs|))
  {
    var b := Play(p, Start(p), schedule);
    StartIsConsistent(p, |p.subs|);
    PlayKeepsConsistent(p, Start(p), schedule);
    TotalsOf(p, b);
  }

  lemma TotalsOf(p: Pass, b: Board)
    requires Consistent(p, b) && AllDone(b)
    ensures b.succeeded == Tally(p.c, p.subs, p.states, p.Results(), Succeeded)
    ensures b.failed == Tally(p.c, p.subs, p.states, p.Results(), FailedNow)
    ensures b.exhausted == Tally(p.c, p.subs, p.states, p.Results(), Exhausted)
    ensures b.succeeded + b.failed + b.exhausted == |p.subs|
    ensures multiset(b.attempts) == multiset(p.Rows(|p.subs|))
  {
    assert p.subs[..|p.subs|] == p.subs;
    FinishedIsTally(p, b.tasks, |p.subs|, Succeeded);
    FinishedIsTally(p, b.tasks, |p.subs|, FailedNow);
    FinishedIsTally(p, b.tasks, |p.subs|, Exhausted);
    forall a: Attempt ensures multiset(b.attempts)[a] == multiset(p.Rows(|p.subs|))[a] {
      CopiesAreRowCopies(p, b.tasks, |p.subs|, a);
      RowCopiesAreRows(p, |p.subs|, a);
    }
    TalliesCoverAll(p.c, p.subs, p.states, p.Results());
  }

  // New attempts are the failures plus the fresh successes; old successes add none.
  lemma {:induction false} AttemptsAreFailuresPlusFresh(p: Pass, n: nat)
    requires n <= |p.subs|
    ensures |p.Rows(n)| + OldSuccesses(p, n)
         == Tally(p.c, p.subs[..n], p.states, p.Results(), FailedNow)
          + Tally(p.c, p.subs[..n], p.states, p.Results(), Succeeded)
  {
    if n > 0 {
      AttemptsAreFailuresPlusFresh(p, n - 1);
      var last := [p.subs[n - 1]];
      TallySplit(p.c, p.subs[..n - 1], last, p.states, p.Results(), FailedNow);
      TallySplit(p.c, p.subs[..n - 1], last, p.states, p.Results(), Succeeded);
      assert p.subs[..n] == p.subs[..n - 1] + last;
      assert Tally(p.c, last, p.states, p.Results(), FailedNow) == (if p.Slot(last[0]) == FailedNow then 1 else 0);
      assert Tally(p.c, last, p.states, p.Results(), Succeeded) == (if p.Slot(last[0]) == Succeeded then 1 else 0);
    }
  }

  function OldSuccesses(p: Pass, n: nat): nat
    requires n <= |p.subs|
  {
    if n == 0 then 0 else OldSuccesses(p, n - 1) + (if AlreadyDelivered(p.states, p.subs[n - 1]) then 1 else 0)
  }

  // ---- The method -------------------------------------------------------------------------

  function ActionsLeft(t: Task): nat {
    match t
    case Waiting => 3
    case Answered => 2
    case Recorded => 1
    case Done => 0
  }

  function Remaining(tasks: seq<Task>): nat {
    if tasks == [] then 0 else ActionsLeft(tasks[0]) + Remaining(tasks[1..])
  }

  lemma {:induction false} RemainingDrops(tasks: seq<Task>, i: nat, t: Task)
    requires i < |tasks|
    requires ActionsLeft(t) < ActionsLeft(tasks[i])
    ensures Remaining(tasks[i := t]) < Remaining(tasks)
  {
    if i > 0 {
      RemainingDrops(tasks[1..], i - 1, t);
      assert tasks[i := t][1..] == tasks[1..][i - 1 := t];
    } else {
      assert tasks[i := t][1..] == tasks[1..];
    }
  }

  // One atomic action of the delegate run for a subscription.
  method RunAction(p: Pass, i: nat, b: Board) returns (b': Board)
    requires Fits(p, b) && i < |b.tasks| && b.tasks[i] != Done
    ensures b' == Advance(p, b, i)
    ensures b'.tasks == b.tasks[i := b'.tasks[i]] && ActionsLeft(b'.tasks[i]) < ActionsLeft(b.tasks[i])
  {
    var s := p.subs[i];
    var succeeded, failed, exhausted, attempts, next := b.succeeded, b.failed, b.exhausted, b.attempts, Done;
    if b.tasks[i] == Waiting {
      if AlreadyDelivered(p.states, s) {
        succeeded := succeeded + 1;
      } else if OutOfRetries(p.c, p.states, s) {
        exhausted := exhausted + 1;
      } else {
        next := Answered;
      }
    } else if b.tasks[i] == Answered {
      attempts := attempts + [p.Row(s)];
      next := Recorded;
    } else if p.post(s) == Success {
      succeeded := succeeded + 1;
    } else {
      failed := failed + 1;
    }
    b' := Board(b.tasks[i := next], succeeded, failed, exhausted, attempts);
  }

  // Runs the tasks in whatever order the scheduler picks them.
  method DeliverToSubscriptions(p: Pass)
    returns (succeeded: nat, failed: nat, exhausted: nat, attempts: seq<Attempt>)
    ensures succeeded == Tally(p.c, p.subs, p.states, p.Results(), Succeeded)
    ensures failed == Tally(p.c, p.subs, p.states, p.Results(), FailedNow)
    ensures exhausted == Tally(p.c, p.subs, p.states, p.Results(), Exhausted)
    ensures multiset(attempts) == multiset(p.Rows(|p.subs|))
  {
    var b := Start(p);
    StartIsConsistent(p, |p.subs|);
    while exists i :: 0 <= i < |b.tasks| && b.tasks[i] != Done
      invariant Consistent(p, b)
      decreases Remaining(b.tasks)
    {
      var i :| 0 <= i < |b.tasks| && b.tasks[i] != Done;
      AdvanceKeepsConsistent(p, b, i);
      var next := RunAction(p, i, b);
      RemainingDrops(b.tasks, i, next.tasks[i]);
      b := next;
    }
    TotalsOf(p, b);
    succeeded, failed, exhausted, attempts := b.succeeded, b.failed, b.exhausted, b.attempts;
  }
}
