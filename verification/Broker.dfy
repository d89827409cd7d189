/** The broker's append-only log, read as a whole, by key, or by partition. */
module Broker {
  import opened Sequences
  import opened Outbox

  /** The number of copies of event e in a log. */
  ghost function Copies(log: seq<Message>, e: EventId): nat {
    if log == [] then 0
    else Copies(log[..|log| - 1], e) + (if log[|log| - 1].eventId == Some(e) then 1 else 0)
  }

  lemma CopiesSnoc(log: seq<Message>, m: Message, e: EventId)
    ensures Copies(log + [m], e) == Copies(log, e) + (if m.eventId == Some(e) then 1 else 0)
  {
    assert (log + [m])[..|log|] == log;
  }

  /** The event ids of a log, in append order. */
  function LogEvents(log: seq<Message>): seq<EventId> {
    if log == [] then []
    else
      var m := log[|log| - 1];
      LogEvents(log[..|log| - 1]) + (if m.eventId.Some? then [m.eventId.value] else [])
  }

  lemma LogEventsSnoc(log: seq<Message>, m: Message)
    ensures LogEvents(log + [m]) == LogEvents(log) + (if m.eventId.Some? then [m.eventId.value] else [])
  {
    assert (log + [m])[..|log|] == log;
  }

  /** The part of the log whose keys are selected: one partition, or one key. */
  function Selected(log: seq<Message>, keep: OrderId -> bool): seq<Message> {
    if log == [] then []
    else Selected(log[..|log| - 1], keep) + (if keep(log[|log| - 1].key) then [log[|log| - 1]] else [])
  }

  function InPartition(part: OrderId -> nat, p: nat): OrderId -> bool {
    (key: OrderId) => part(key) == p
  }

  /** The records of partition p in offset order, when `part` assigns keys to partitions. */
  function PartitionLog(log: seq<Message>, part: OrderId -> nat, p: nat): seq<Message> {
    Selected(log, InPartition(part, p))
  }

  /** Appending to the log only extends the partitions. */
  lemma {:induction false} SelectedPrefix(log: seq<Message>, log': seq<Message>, keep: OrderId -> bool)
    requires log <= log'
    ensures Selected(log, keep) <= Selected(log', keep)
  {
    if |log| < |log'| {
      SelectedPrefix(log, log'[..|log'| - 1], keep);
    } else {
      assert log == log';
    }
  }

  lemma {:induction false} SelectedMembers(log: seq<Message>, keep: OrderId -> bool, m: Message)
    ensures m in Selected(log, keep) <==> m in log && keep(m.key)
  {
    if log != [] {
      var front := log[..|log| - 1];
      SelectedMembers(front, keep, m);
      assert log == front + [log[|log| - 1]];
    }
  }

  lemma {:induction false} CopiesPositive(log: seq<Message>, e: EventId)
    ensures Copies(log, e) > 0 <==> exists m :: m in log && m.eventId == Some(e)
  {
    if log != [] {
      var front, x := log[..|log| - 1], log[|log| - 1];
      CopiesPositive(front, e);
      assert log == front + [x];
      assert x in log;
    }
  }
}
