// The in-process hint queue: bounded, first in first out, dropping its oldest hint when full.

module Signals {
  import opened OutboxTypes

  const CAPACITY: nat := 10_000

  // Every hint ever given, how far the queue has moved past them, and which ones were read.
  // A position before `head` that was not read was dropped.
  datatype Hints = Hints(notified: seq<MessageId>, head: nat, read: set<nat>)
  {
    predicate Shaped() {
      head <= |notified|
    }

    function Queue(): seq<MessageId>
      requires Shaped()
    {
      notified[head..]
    }

    function Notify(id: MessageId): Hints {
      Hints(notified + [id], if |notified| == head + CAPACITY then head + 1 else head, read)
    }

    function Read(): Hints {
      if head < |notified| then Hints(notified, head + 1, read + {head}) else this
    }

    predicate Dropped(p: nat) {
      p < head && p !in read
    }
  }

  class ChannelOutboxSignal {
    var channel: seq<MessageId>
    ghost var hints: Hints

    ghost predicate Valid()
      reads this
    {
      hints.Shaped() && channel == hints.Queue() && |channel| <= CAPACITY
    }

    constructor ()
      ensures Valid() && hints == Hints([], 0, {})
    {
      channel := [];
      hints := Hints([], 0, {});
    }

    method Notify(messageId: MessageId)
      requires Valid()
      modifies this
      ensures Valid() && hints == old(hints).Notify(messageId)
      ensures channel == old(if |channel| < 10_000 then channel else channel[1..]) + [messageId]
    {
      if |channel| == CAPACITY {
        channel := channel[1..];
      }
      channel := channel + [messageId];
      hints := hints.Notify(messageId);
    }

    method TryRead() returns (messageId: Option<MessageId>)
      requires Valid()
      modifies this
      ensures Valid() && hints == old(hints).Read()
      ensures messageId == if old(channel) == [] then None else Some(old(channel)[0])
      ensures channel == old(if channel == [] then [] else channel[1..])
    {
      if |channel| == 0 {
        messageId := None;
      } else {
        messageId := Some(channel[0]);
        channel := channel[1..];
      }
      hints := hints.Read();
    }
  }

  // ---- Any use of the signal ----------------------------------------------------------------

  datatype Use = NotifyOf(id: MessageId) | ReadNext

  function After(uses: seq<Use>): Hints {
    if uses == [] then Hints([], 0, {})
    else
      var before := After(uses[..|uses| - 1]);
      match uses[|uses| - 1]
      case NotifyOf(id) => before.Notify(id)
      case ReadNext => before.Read()
  }

  // A hint that was not read is gone exactly when CAPACITY newer ones followed it: until then
  // it waits in the queue, whose contents are the newest hints in the order they were given.
  lemma {:induction false} DroppedExactly(uses: seq<Use>, p: nat)
    requires p < |After(uses).notified| && p !in After(uses).read
    ensures var h := After(uses);
            && h.Shaped() && |h.Queue()| <= CAPACITY
            && (h.Dropped(p) <==> p + CAPACITY < |h.notified|)
            && (!h.Dropped(p) ==> p - h.head < |h.Queue()| && h.Queue()[p - h.head] == h.notified[p])
  {
    WellFormed(uses);
    if After(uses).Dropped(p) {
      DroppedIsOld(uses, p);
    }
  }

  lemma {:induction false} WellFormed(uses: seq<Use>)
    ensures After(uses).Shaped() && |After(uses).Queue()| <= CAPACITY
    ensures forall p :: p in After(uses).read ==> p < After(uses).head
  {
    if uses != [] {
      WellFormed(uses[..|uses| - 1]);
    }
  }

  lemma {:induction false} DroppedIsOld(uses: seq<Use>, p: nat)
    requires After(uses).Dropped(p)
    ensures p + CAPACITY < |After(uses).notified|
  {
    if uses != [] {
      var earlier := uses[..|uses| - 1];
      WellFormed(earlier);
      if After(earlier).Dropped(p) {
        DroppedIsOld(earlier, p);
      }
    }
  }
}
