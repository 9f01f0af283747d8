/**
 * What a destination worker does with the batch it fetched, as a reference
 * definition over values: records that do not list the destination are
 * skipped; for one that does, the worker checks the reachability gate, calls
 * the sender and retries the same record until the sender reports success,
 * then asks for the destination to be taken off the first record with that
 * record's id and moves to the next one.
 *
 * The sender is an oracle: `replies` holds the outcomes it reports, one per
 * call. A closed gate or an exhausted oracle is where the worker would wait;
 * the definition stops there and hands back the part of the batch still to do.
 */
module Delivery {
  import opened EventTable

  /** One call of the destination's sender, with the outcome it reported. */
  datatype Attempt = Attempt(event: EventRecord, success: bool)

  /**
   * What working through a batch did: the sender calls made, the records whose
   * delivery finished (in the order they finished), and the part of the batch
   * still to do, starting with the record the worker waits on.
   */
  datatype Run = Run(attempts: seq<Attempt>, finished: seq<EventRecord>, rest: seq<EventRecord>)

  function Deliver(pending: seq<EventRecord>, destination: string, reachable: bool, replies: seq<bool>): Run
    decreases |pending|, |replies|
  {
    if pending == [] then Run([], [], [])
    else if destination !in pending[0].destinations then Deliver(pending[1..], destination, reachable, replies)
    else if !reachable || replies == [] then Run([], [], pending)
    else if replies[0] then
      var run := Deliver(pending[1..], destination, reachable, replies[1..]);
      Run([Attempt(pending[0], true)] + run.attempts, [pending[0]] + run.finished, run.rest)
    else
      var run := Deliver(pending, destination, reachable, replies[1..]);
      Run([Attempt(pending[0], false)] + run.attempts, run.finished, run.rest)
  }

  /** The records that list `destination`, in order. */
  function Matching(records: seq<EventRecord>, destination: string): seq<EventRecord>
  {
    if records == [] then []
    else if destination in records[0].destinations then [records[0]] + Matching(records[1..], destination)
    else Matching(records[1..], destination)
  }

  /** The records of the successful calls, in order. */
  function Successes(attempts: seq<Attempt>): seq<EventRecord>
  {
    if attempts == [] then []
    else if attempts[0].success then [attempts[0].event] + Successes(attempts[1..])
    else Successes(attempts[1..])
  }

  /** No call of the sender is made while the gate reports the network unreachable. */
  lemma {:induction false} DeliverClosedGate(pending: seq<EventRecord>, destination: string, replies: seq<bool>)
    ensures var run := Deliver(pending, destination, false, replies);
      run.attempts == [] && run.finished == []
  {
    if pending != [] && destination !in pending[0].destinations {
      DeliverClosedGate(pending[1..], destination, replies);
    }
  }

  /** A record that does not list the destination is passed over without a call. */
  lemma DeliverSkip(pending: seq<EventRecord>, destination: string, reachable: bool, replies: seq<bool>)
    requires pending != [] && destination !in pending[0].destinations
    ensures Deliver(pending, destination, reachable, replies) == Deliver(pending[1..], destination, reachable, replies)
  {
  }

  /**
   * With the gate open and a reply at hand, the worker calls the sender for the
   * head record; the record is finished on success and tried again otherwise.
   */
  lemma DeliverAttempt(pending: seq<EventRecord>, destination: string, replies: seq<bool>)
    requires pending != [] && destination in pending[0].destinations && replies != []
    ensures var after := Deliver(if replies[0] then pending[1..] else pending, destination, true, replies[1..]);
      Deliver(pending, destination, true, replies) ==
        Run([Attempt(pending[0], replies[0])] + after.attempts,
            (if replies[0] then [pending[0]] else []) + after.finished, after.rest)
  {
    if !replies[0] {
      assert [] + Deliver(pending, destination, true, replies[1..]).finished
          == Deliver(pending, destination, true, replies[1..]).finished;
    }
  }

  /** With the gate closed or no reply left, the worker waits on a head record that lists the destination. */
  lemma DeliverWaits(pending: seq<EventRecord>, destination: string, reachable: bool, replies: seq<bool>)
    requires pending != [] && destination in pending[0].destinations
    requires !reachable || replies == []
    ensures Deliver(pending, destination, reachable, replies) == Run([], [], pending)
  {
  }

  /**
   * Working through a batch in two stretches: what the second stretch does is
   * appended to what the first one did.
   */
  lemma ThenStep(whole: Run, made: seq<Attempt>, done: seq<EventRecord>, part: Run,
                 step: seq<Attempt>, finished: seq<EventRecord>, after: Run)
    requires whole == Run(made + part.attempts, done + part.finished, part.rest)
    requires part == Run(step + after.attempts, finished + after.finished, after.rest)
    ensures whole == Run((made + step) + after.attempts, (done + finished) + after.finished, after.rest)
  {
    assert made + (step + after.attempts) == (made + step) + after.attempts;
    assert done + (finished + after.finished) == (done + finished) + after.finished;
  }

  /** The outcomes of the calls are the oracle's replies, in order, and no more of them than it has. */
  lemma {:induction false} DeliverOutcomes(pending: seq<EventRecord>, destination: string, reachable: bool, replies: seq<bool>)
    ensures var run := Deliver(pending, destination, reachable, replies);
      && |run.attempts| <= |replies|
      && forall k | 0 <= k < |run.attempts| :: run.attempts[k].success == replies[k]
    decreases |pending|, |replies|
  {
    if pending == [] {
    } else if destination !in pending[0].destinations {
      DeliverOutcomes(pending[1..], destination, reachable, replies);
    } else if !reachable || replies == [] {
    } else if replies[0] {
      DeliverOutcomes(pending[1..], destination, reachable, replies[1..]);
    } else {
      DeliverOutcomes(pending, destination, reachable, replies[1..]);
    }
  }

  /**
   * What is left is a tail of the batch. When it is not empty, it starts with a
   * record that lists the destination, and the worker stopped there only
   * because the gate is closed or every reply was used.
   */
  lemma {:induction false} DeliverRest(pending: seq<EventRecord>, destination: string, reachable: bool, replies: seq<bool>)
    ensures var run := Deliver(pending, destination, reachable, replies);
      && |run.rest| <= |pending|
      && run.rest == pending[|pending| - |run.rest|..]
      && (run.rest != [] ==> destination in run.rest[0].destinations)
      && (run.rest != [] && reachable ==> |run.attempts| == |replies|)
    decreases |pending|, |replies|
  {
    if pending == [] {
    } else if destination !in pending[0].destinations {
      DeliverRest(pending[1..], destination, reachable, replies);
    } else if !reachable || replies == [] {
    } else if replies[0] {
      DeliverRest(pending[1..], destination, reachable, replies[1..]);
    } else {
      DeliverRest(pending, destination, reachable, replies[1..]);
    }
  }

  /**
   * Every record of the batch that lists the destination is either finished or
   * still to do, in batch order: skipped records are never finished, and each
   * finished record is one the sender reported success for.
   */
  lemma {:induction false} DeliverFinished(pending: seq<EventRecord>, destination: string, reachable: bool, replies: seq<bool>)
    ensures var run := Deliver(pending, destination, reachable, replies);
      && Matching(pending, destination) == run.finished + Matching(run.rest, destination)
      && Successes(run.attempts) == run.finished
    decreases |pending|, |replies|
  {
    if pending == [] {
    } else if destination !in pending[0].destinations {
      DeliverFinished(pending[1..], destination, reachable, replies);
    } else if !reachable || replies == [] {
    } else if replies[0] {
      DeliverFinished(pending[1..], destination, reachable, replies[1..]);
    } else {
      DeliverFinished(pending, destination, reachable, replies[1..]);
    }
  }

  /**
   * When the first record lists the destination, the worker either calls the
   * sender for that record first or makes no call and waits on it.
   */
  lemma {:induction false} DeliverStartsAtHead(pending: seq<EventRecord>, destination: string, reachable: bool, replies: seq<bool>)
    requires pending != [] && destination in pending[0].destinations
    ensures var run := Deliver(pending, destination, reachable, replies);
      if run.attempts == [] then run.rest == pending else run.attempts[0].event == pending[0]
  {
  }

  /**
   * A failed call is followed by another call for the same record, or, when it
   * is the last call, the worker waits on that record: later records are not
   * tried before it succeeds.
   */
  lemma {:induction false} DeliverRetries(pending: seq<EventRecord>, destination: string, reachable: bool, replies: seq<bool>)
    ensures var run := Deliver(pending, destination, reachable, replies);
      && (forall k | 0 <= k < |run.attempts| - 1 && !run.attempts[k].success ::
            run.attempts[k + 1].event == run.attempts[k].event)
      && (run.attempts != [] && !run.attempts[|run.attempts| - 1].success ==>
            run.rest != [] && run.rest[0] == run.attempts[|run.attempts| - 1].event)
    decreases |pending|, |replies|
  {
    if pending == [] {
    } else if destination !in pending[0].destinations {
      DeliverRetries(pending[1..], destination, reachable, replies);
    } else if !reachable || replies == [] {
    } else if replies[0] {
      DeliverRetries(pending[1..], destination, reachable, replies[1..]);
    } else {
      DeliverRetries(pending, destination, reachable, replies[1..]);
      DeliverStartsAtHead(pending, destination, reachable, replies[1..]);
    }
  }

  /**
   * The sender is only ever called for records of the batch that list the
   * destination, and only those records are finished, so removal is requested
   * only for their ids.
   */
  lemma {:induction false} DeliverOnlyListed(pending: seq<EventRecord>, destination: string, reachable: bool, replies: seq<bool>)
    ensures var run := Deliver(pending, destination, reachable, replies);
      && (forall a | a in run.attempts :: destination in a.event.destinations && a.event in pending)
      && (forall x | x in run.finished :: destination in x.destinations && x in pending)
    decreases |pending|, |replies|
  {
    if pending == [] {
    } else if destination !in pending[0].destinations {
      DeliverOnlyListed(pending[1..], destination, reachable, replies);
    } else if !reachable || replies == [] {
    } else if replies[0] {
      DeliverOnlyListed(pending[1..], destination, reachable, replies[1..]);
    } else {
      DeliverOnlyListed(pending, destination, reachable, replies[1..]);
    }
  }

  /** The record, when it lists the destination, else nothing. */
  function Listed(record: EventRecord, destination: string): seq<EventRecord>
  {
    if destination in record.destinations then [record] else []
  }

  /** The table after the removal rule was applied to the id of each finished record, in order. */
  function RemoveEach(records: seq<EventRecord>, finished: seq<EventRecord>, destination: string): seq<EventRecord>
  {
    if finished == [] then records
    else RemovedFrom(RemoveEach(records, finished[..|finished| - 1], destination), finished[|finished| - 1].id, destination)
  }

  /** Finishing one more record applies the removal rule to its id, after the earlier ones. */
  lemma RemoveEachListed(records: seq<EventRecord>, done: seq<EventRecord>, record: EventRecord, destination: string)
    ensures var before := RemoveEach(records, done, destination);
      RemoveEach(records, done + Listed(record, destination), destination) ==
        if destination in record.destinations then RemovedFrom(before, record.id, destination) else before
  {
    if destination in record.destinations {
      assert (done + [record])[..|done|] == done;
    } else {
      assert done + [] == done;
    }
  }

  /**
   * Removal goes by id, so when ids repeat it can hit a record the worker never
   * delivered: here the worker for "a" finishes the second record, and the
   * removal deletes the first one, still owed to "b", while the second keeps "a".
   */
  lemma RepeatedIdDeletesOtherRecord()
    ensures var owedToB := EventRecord(5, "x", ["b"]);
      var owedToA := EventRecord(5, "y", ["a"]);
      var run := Deliver([owedToB, owedToA], "a", true, [true]);
      && run.finished == [owedToA]
      && RemoveEach([owedToB, owedToA], run.finished, "a") == [owedToA]
  {
    var owedToB := EventRecord(5, "x", ["b"]);
    var owedToA := EventRecord(5, "y", ["a"]);
    assert [owedToB, owedToA][1..] == [owedToA];
    assert Deliver([owedToA], "a", true, [true]).finished == [owedToA];
    assert RemoveEach([owedToB, owedToA], [owedToA], "a") == RemovedFrom([owedToB, owedToA], 5, "a");
  }
}
