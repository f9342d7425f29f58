// The delivery-attempt store: a multi-row insert that is all or nothing, and the aggregate.

module AttemptStore {
  import opened OutboxTypes
  import opened AttemptTable
  import opened Delivery
  import opened ParallelDelivery

  predicate DistinctIds(attempts: seq<Attempt>) {
    forall i, j :: 0 <= i < j < |attempts| ==> attempts[i].0 != attempts[j].0
  }

  // The attempts as rows; with distinct ids the order does not matter.
  function AsRows(attempts: seq<Attempt>): AttemptLog {
    if attempts == [] then map[]
    else AsRows(attempts[..|attempts| - 1])[attempts[|attempts| - 1].0 := attempts[|attempts| - 1].1]
  }

  lemma {:induction false} AsRowsMeaning(attempts: seq<Attempt>)
    ensures forall id :: id in AsRows(attempts) <==> exists i :: 0 <= i < |attempts| && attempts[i].0 == id
    ensures DistinctIds(attempts) ==>
              forall i :: 0 <= i < |attempts| ==>
                attempts[i].0 in AsRows(attempts) && AsRows(attempts)[attempts[i].0] == attempts[i].1
  {
    if attempts != [] {
      var front := attempts[..|attempts| - 1];
      AsRowsMeaning(front);
      assert forall i :: 0 <= i < |front| ==> front[i] == attempts[i];
    }
  }

  lemma InsertableWithOneMore(front: seq<Attempt>, a: Attempt, log: AttemptLog, messages: set<MessageId>)
    ensures var all := front + [a];
            && AsRows(all) == AsRows(front)[a.0 := a.1]
            && (DistinctIds(all) && Insertable(log, AsRows(all), messages)
                <==> DistinctIds(front) && Insertable(log, AsRows(front), messages)
                     && a.0 !in AsRows(front) && a.0 !in log && a.0.messageId in messages)
  {
    var all := front + [a];
    assert all[..|all| - 1] == front && all[|all| - 1] == a;
    DistinctWithOneMore(front, a);
  }

  lemma DistinctWithOneMore(front: seq<Attempt>, a: Attempt)
    ensures DistinctIds(front + [a]) <==> DistinctIds(front) && a.0 !in AsRows(front)
  {
    AsRowsMeaning(front);
    var all := front + [a];
    assert all[|front|] == a && forall i :: 0 <= i < |front| ==> all[i] == front[i];
    if DistinctIds(all) {
      assert forall i :: 0 <= i < |front| ==> front[i].0 != a.0;
    }
  }

  class DeliveryAttemptStore {
    var log: AttemptLog

    constructor ()
      ensures log == map[]
    {
      log := map[];
    }

    // One INSERT: it fails as a whole when a key is taken (stored or repeated) or a
    // referenced message is gone.
    method SaveAttempts(attempts: seq<Attempt>, messages: set<MessageId>) returns (saved: bool)
      modifies this
      ensures saved <==> DistinctIds(attempts) && Insertable(old(log), AsRows(attempts), messages)
      ensures log == if saved then old(log) + AsRows(attempts) else old(log)
    {
      var staged: AttemptLog := map[];
      saved := true;
      for i := 0 to |attempts|
        invariant log == old(log)
        invariant staged == AsRows(attempts[..i])
        invariant saved <==> DistinctIds(attempts[..i]) && Insertable(log, staged, messages)
      {
        var a := attempts[i];
        InsertableWithOneMore(attempts[..i], a, log, messages);
        assert attempts[..i + 1] == attempts[..i] + [a];
        if a.0 in staged || a.0 in log || a.0.messageId !in messages {
          saved := false;
        }
        staged := staged[a.0 := a.1];
      }
      assert attempts[..|attempts|] == attempts;
      if saved {
        log := log + staged;
      }
    }

    // The reader loop over the GROUP BY result.
    method GetDeliveryStates(m: MessageId, subs: seq<SubscriptionId>) returns (result: StateMap)
      ensures result == States(log, m, subs)
    {
      result := map[];
      for i := 0 to |subs|
        invariant result == States(log, m, subs[..i])
      {
        var s := subs[i];
        assert forall x :: x in subs[..i + 1] <==> x in subs[..i] || x == s;
        if RowsOf(log, m, s) != {} {
          result := result[s := DeliveryState(Count(log, m, s), HasSuccess(log, m, s))];
        }
      }
      assert subs[..|subs|] == subs;
    }
  }

  // ---- What a pass hands over -------------------------------------------------------------

  lemma {:induction false} RowsMeaning(p: Pass, n: nat)
    requires n <= |p.subs|
    ensures forall a :: a in p.Rows(n) <==>
              exists i :: 0 <= i < n && NeedsPost(p.c, p.states, p.subs[i]) && a == p.Row(p.subs[i])
    ensures Distinct(p.subs) ==> DistinctIds(p.Rows(n))
  {
    if n > 0 {
      RowsMeaning(p, n - 1);
      var s := p.subs[n - 1];
      if NeedsPost(p.c, p.states, s) {
        assert p.Rows(n) == p.Rows(n - 1) + [p.Row(s)];
        if Distinct(p.subs) {
          var front := p.Rows(n - 1);
          forall i | 0 <= i < |front| ensures front[i].0 != p.Row(s).0 {
            assert front[i] in front;
          }
        }
      }
    }
  }

  lemma {:induction false} DistinctMultiplicity(attempts: seq<Attempt>, a: Attempt)
    requires DistinctIds(attempts)
    ensures multiset(attempts)[a] <= 1
  {
    if attempts != [] {
      DistinctMultiplicity(attempts[1..], a);
      assert attempts == [attempts[0]] + attempts[1..];
      assert a in attempts[1..] ==> a != attempts[0];
    }
  }

  lemma TwiceCounted(attempts: seq<Attempt>, i: nat, j: nat)
    requires i < j < |attempts| && attempts[i] == attempts[j]
    ensures multiset(attempts)[attempts[i]] >= 2
  {
    assert attempts == attempts[..i] + [attempts[i]] + attempts[i + 1..];
    assert attempts[i + 1..][j - i - 1] == attempts[i];
  }

  // Whatever order the delivery tasks recorded them in, the attempts of a pass have distinct
  // keys and form exactly the rows the protocol inserts.
  lemma AttemptsAreNewRows(p: Pass, attempts: seq<Attempt>)
    requires Distinct(p.subs) && multiset(attempts) == multiset(p.Rows(|p.subs|))
    ensures DistinctIds(attempts)
    ensures AsRows(attempts) == NewRows(p.messageId, p.states, p.Results())
  {
    var rows := p.Rows(|p.subs|);
    RowsMeaning(p, |p.subs|);
    assert forall a :: a in attempts <==> a in multiset(attempts);
    assert forall a :: a in rows <==> a in multiset(rows);
    forall i, j | 0 <= i < j < |attempts| ensures attempts[i].0 != attempts[j].0 {
      assert attempts[i] in rows && attempts[j] in rows;
      if attempts[i].0 == attempts[j].0 {
        TwiceCounted(attempts, i, j);
        DistinctMultiplicity(rows, attempts[i]);
      }
    }
    AsRowsMeaning(attempts);
    SameRows(p, attempts);
  }

  lemma SameRows(p: Pass, attempts: seq<Attempt>)
    requires DistinctIds(attempts)
    requires forall a :: a in attempts <==>
      exists i :: 0 <= i < |p.subs| && NeedsPost(p.c, p.states, p.subs[i]) && a == p.Row(p.subs[i])
    ensures AsRows(attempts) == NewRows(p.messageId, p.states, p.Results())
  {
    var rows, new' := AsRows(attempts), NewRows(p.messageId, p.states, p.Results());
    AsRowsMeaning(attempts);
    forall id | id in rows ensures id in new' && rows[id] == new'[id] {
      var i :| 0 <= i < |attempts| && attempts[i].0 == id;
      assert attempts[i] in attempts;
      assert exists j :: 0 <= j < |p.subs| && NeedsPost(p.c, p.states, p.subs[j]) && attempts[i] == p.Row(p.subs[j]);
    }
    forall id | id in new' ensures id in rows {
      var s := id.subscriptionId;
      assert s in p.Results() && s in p.subs && p.Row(s) in attempts;
      assert id == p.Row(s).0;
      var i :| 0 <= i < |attempts| && attempts[i] == p.Row(s);
    }
  }
}
